/** Flow control towards the TypeScript receiver, end to end: a sender that spends
    its window as both runtimes do, a FIFO wire for MSG and END, the stream.ts
    receiver with its asynchronous pulls, and a FIFO wire for the credit. The
    receiver counts a payload as buffered until the continuation of its pull
    has run. */
module TsFlow {
  import opened Frames
  import opened Queues
  import opened TsStream
  import CreditFlow
  import TsMux

  /** The frame encoder is a library: a delta that does not fit uint32 is either
      truncated or rejected, and a rejection surfaces in recv. */
  datatype Encoder = Truncates | Rejects

  datatype Conf = Conf(wr: int, encoder: Encoder)

  datatype Item = Data(p: Payload) | Fin(ok: bool)

  /** What ended the receiving stream and took it off the mux. */
  datatype Ending = Live | ByPeer(ok: bool) | ByCaller | ByOverflow

  datatype Link = Link(
    window: int,                 // the sender's
    reserved: Option<Payload>,   // spent from the window, not written yet
    done: bool,                  // END was written
    wire: seq<Item>,
    inn: In,
    ending: Ending,
    back: seq<nat>,              // WINDOW_UPDATE deltas in flight
    sent: seq<Payload>,
    taken: seq<Payload>,         // payloads whose recv has finished, in order
    refused: seq<Payload>)       // those of them whose recv failed to announce the credit

  datatype Event = Reserve(p: Payload) | WriteMsg | WriteEnd(ok: bool) | Arrive | Pull | Continue | Credit | Cancel

  function Init(ws: int): Link { Link(ws, None, false, [], In(Empty(), [], 0, 0), Live, [], [], [], []) }

  // ---- the sender ----

  predicate CanReserve(s: Link) { s.reserved.None? && !s.done && s.window > 0 }

  function DoReserve(s: Link, p: Payload): Link {
    s.(window := s.window - |p|, reserved := Some(p), sent := s.sent + [p])
  }

  function DoWrite(s: Link): Link
    requires s.reserved.Some?
  {
    s.(wire := s.wire + [Data(s.reserved.value)], reserved := None)
  }

  function DoEnd(s: Link, ok: bool): Link { s.(wire := s.wire + [Fin(ok)], done := true) }

  function DoCredit(s: Link): Link
    requires s.back != []
  {
    s.(window := s.window + s.back[0], back := s.back[1..])
  }

  // ---- the receiver ----

  /** The mux's check: already over the window, even with an empty queue. */
  predicate Resets(s: Link, c: Conf) { s.ending.Live? && s.wire != [] && s.wire[0].Data? && s.inn.buffered > c.wr }

  const PEER_ERROR := Status(2, "peer error")

  function ArrivedEnding(s: Link, c: Conf): Ending
    requires s.wire != []
  {
    if !s.ending.Live? then s.ending
    else if s.wire[0].Fin? then ByPeer(s.wire[0].ok)
    else if Resets(s, c) then ByOverflow
    else Live
  }

  function ArrivedIn(s: Link, c: Conf): In
    requires s.wire != []
  {
    match ArrivedEnding(s, c)
    case Live => if s.wire[0].Data? then TsStream.Arrive(s.inn, s.wire[0].p) else s.inn
    case ByPeer(ok) =>
      s.inn.(queue := if !s.ending.Live? then s.inn.queue
                      else if ok then Finished(s.inn.queue) else FailedWith(s.inn.queue, Some(PEER_ERROR)))
    case ByOverflow =>
      s.inn.(queue := if !s.ending.Live? then s.inn.queue
                      else FailedWith(s.inn.queue, Some(TsMux.RECV_OVERFLOW)))
    case ByCaller => s.inn
  }

  function DoArrive(s: Link, c: Conf): Link
    requires s.wire != []
  {
    s.(wire := s.wire[1..], ending := ArrivedEnding(s, c), inn := ArrivedIn(s, c))
  }

  /** The coalesced total recv's continuation has to announce, 0 for none. */
  function Due(s: Link, c: Conf): nat
    requires s.inn.continuing != []
  {
    var n := |s.inn.continuing[0]|;
    if s.ending.Live? && Flushes(s.inn, n, c.wr) then s.inn.pending + n else 0
  }

  /** What reaches the wire of it. */
  function Announced(total: nat, c: Conf): nat {
    if c.encoder.Truncates? || total < 0x1_0000_0000 then total % 0x1_0000_0000 else 0
  }

  function DoContinue(s: Link, c: Conf): Link
    requires s.inn.continuing != []
  {
    var (p, total) := (s.inn.continuing[0], Due(s, c));
    s.(inn := Resume(s.inn, !s.ending.Live?, c.wr),
       back := if Announced(total, c) > 0 then s.back + [Announced(total, c)] else s.back,
       taken := s.taken + [p],
       refused := if c.encoder.Rejects? && total >= UINT32_RANGE then s.refused + [p] else s.refused)
  }

  /** None when the step is not enabled. */
  function Step(s: Link, e: Event, c: Conf): Option<Link> {
    match e
    case Reserve(p) => if CanReserve(s) then Some(DoReserve(s, p)) else None
    case WriteMsg => if s.reserved.Some? then Some(DoWrite(s)) else None
    case WriteEnd(ok) => if s.reserved.None? && !s.done then Some(DoEnd(s, ok)) else None
    case Arrive => if s.wire != [] then Some(DoArrive(s, c)) else None
    case Pull => Some(s.(inn := Request(s.inn)))
    case Continue => if s.inn.continuing != [] then Some(DoContinue(s, c)) else None
    case Credit => if s.back != [] then Some(DoCredit(s)) else None
    case Cancel =>
      if s.ending.Live? then Some(s.(ending := ByCaller, inn := s.inn.(queue := Finished(s.inn.queue)))) else None
  }

  function Run(s: Link, es: seq<Event>, c: Conf): Option<Link>
    decreases |es|
  {
    if es == [] then Some(s)
    else
      var t := Step(s, es[0], c);
      if t.None? then None else Run(t.value, es[1..], c)
  }

  lemma RunCons(s: Link, e: Event, t: Link, es: seq<Event>, c: Conf)
    requires Step(s, e, c) == Some(t)
    ensures Run(s, [e] + es, c) == Run(t, es, c)
  {
    assert ([e] + es)[1..] == es;
  }

  lemma {:induction false} RunConcat(s: Link, a: seq<Event>, b: seq<Event>, c: Conf)
    requires Run(s, a, c).Some?
    ensures Run(s, a + b, c) == Run(Run(s, a, c).value, b, c)
    decreases |a|
  {
    if a == [] {
      assert a + b == b;
    } else {
      assert (a + b)[1..] == a[1..] + b && (a + b)[0] == a[0];
      RunConcat(Step(s, a[0], c).value, a[1..], b, c);
    }
  }

  ghost predicate Reaches(ws: int, c: Conf, es: seq<Event>, s: Link) {
    ws > 0 && c.wr > 0 && Run(Init(ws), es, c) == Some(s)
  }

  // ---- quantities ----

  function Payloads(wire: seq<Item>): seq<Payload> {
    if wire == [] then [] else (if wire[0].Data? then [wire[0].p] else []) + Payloads(wire[1..])
  }

  lemma {:induction false} PayloadsSnoc(wire: seq<Item>, i: Item)
    ensures Payloads(wire + [i]) == Payloads(wire) + if i.Data? then [i.p] else []
  {
    if wire != [] {
      assert (wire + [i])[1..] == wire[1..] + [i];
      PayloadsSnoc(wire[1..], i);
    } else {
      assert wire + [i] == [i] && [i][1..] == [];
    }
  }

  function InFlight(s: Link): seq<Payload> { Payloads(s.wire) + (if s.reserved.Some? then [s.reserved.value] else []) }

  /** Bytes that arrived and whose credit is not back yet. */
  function Held(s: Link): int { s.inn.buffered + s.inn.pending + CreditFlow.Sum(s.back) }

  function Ledger(s: Link): int { s.window + TotalBytes(InFlight(s)) + Held(s) }

  function Received(s: Link): seq<Payload> { s.taken + s.inn.continuing + s.inn.queue.values }

  // ---- the invariant ----

  /** The window was positive when the newest in-flight message was admitted. */
  ghost predicate Admitted(s: Link, ws: int, wr: int) {
    && Ledger(s) <= ws && s.inn.pending < Threshold(wr)
    && (InFlight(s) != [] ==> Held(s) + TotalBytes(InFlight(s)[..|InFlight(s)| - 1]) <= ws - 1)
  }

  ghost predicate Ordered(s: Link) {
    && (s.inn.queue.values == [] || s.inn.queue.waiters == [])
    && (Terminated(s.inn.queue) <==> !s.ending.Live?)
    && Received(s) <= s.sent && (s.ending.Live? ==> Received(s) + InFlight(s) == s.sent)
  }

  /** END is the last thing on the wire, and when it arrives everything else has. */
  ghost predicate EndLast(s: Link) {
    && (forall i :: 0 <= i < |s.wire| && s.wire[i].Fin? ==> i == |s.wire| - 1 && s.done)
    && (s.done ==> s.reserved.None?)
    && (s.ending.ByPeer? ==>
          && s.done && s.wire == [] && Received(s) == s.sent
          && s.inn.queue.ended == s.inn.queue.error.None? == s.ending.ok)
    && (s.ending.ByOverflow? ==> !s.inn.queue.ended)
  }

  ghost predicate Inv(s: Link, ws: int, wr: int) { Admitted(s, ws, wr) && Ordered(s) && EndLast(s) }

  // -- bytes --

  lemma ReserveShifts(s: Link, p: Payload)
    requires s.reserved.None?
    ensures var (a, b) := (InFlight(s), InFlight(DoReserve(s, p)));
            b == a + [p] && b[..|b| - 1] == a && TotalBytes(b) == TotalBytes(a) + |p|
  {
    assert InFlight(s) == Payloads(s.wire);
    TotalBytesSnoc(InFlight(s), p);
  }

  lemma WriteShifts(s: Link)
    requires s.reserved.Some?
    ensures InFlight(DoWrite(s)) == InFlight(s)
  {
    PayloadsSnoc(s.wire, Data(s.reserved.value));
  }

  lemma EndShifts(s: Link, ok: bool)
    requires s.reserved.None?
    ensures InFlight(DoEnd(s, ok)) == InFlight(s)
  {
    PayloadsSnoc(s.wire, Fin(ok));
  }

  /** A payload leaves the head of what is in flight. */
  lemma ArriveShifts(s: Link, t: Link)
    requires s.wire != [] && t.wire == s.wire[1..] && t.reserved == s.reserved
    ensures s.wire[0].Fin? ==> InFlight(t) == InFlight(s)
    ensures s.wire[0].Data? ==> InFlight(s) == [s.wire[0].p] + InFlight(t)
  {
  }

  lemma HeadBytes(a: seq<Payload>, p: Payload, b: seq<Payload>)
    requires a == [p] + b
    ensures TotalBytes(a) == |p| + TotalBytes(b)
    ensures b != [] ==> TotalBytes(a[..|a| - 1]) == |p| + TotalBytes(b[..|b| - 1])
  {
    assert a[1..] == b;
    if b != [] { assert a[..|a| - 1][1..] == b[..|b| - 1] && a[..|a| - 1][0] == p; }
  }

  /** What an arrival may do to the counters. */
  ghost predicate Counts(s: Link, t: Link, accepted: bool)
    requires s.wire != []
  {
    && t.wire == s.wire[1..] && t.reserved == s.reserved && t.window == s.window && t.back == s.back
    && t.inn.pending == s.inn.pending && (accepted ==> s.wire[0].Data?)
    && t.inn.buffered == s.inn.buffered + if accepted then |s.wire[0].p| else 0
  }

  predicate Accepts(s: Link, c: Conf) { s.ending.Live? && s.wire != [] && s.wire[0].Data? && !Resets(s, c) }

  lemma ArriveCounts(s: Link, c: Conf)
    requires s.wire != []
    ensures Counts(s, DoArrive(s, c), Accepts(s, c))
  {
  }

  lemma CountsKeepAdmitted(s: Link, t: Link, accepted: bool, ws: int, wr: int)
    requires Admitted(s, ws, wr) && s.wire != [] && Counts(s, t, accepted)
    ensures Admitted(t, ws, wr)
    ensures accepted || s.wire[0].Fin? ==> Ledger(t) == Ledger(s)
  {
    ArriveShifts(s, t);
    if s.wire[0].Data? { HeadBytes(InFlight(s), s.wire[0].p, InFlight(t)); }
  }

  lemma ArriveKeepsAdmitted(s: Link, ws: int, c: Conf)
    requires Admitted(s, ws, c.wr) && s.wire != []
    ensures Admitted(DoArrive(s, c), ws, c.wr)
    ensures DoArrive(s, c).ending.Live? ==> s.ending.Live? && Ledger(DoArrive(s, c)) == Ledger(s)
  {
    ArriveCounts(s, c);
    CountsKeepAdmitted(s, DoArrive(s, c), Accepts(s, c), ws, c.wr);
  }

  /** The one step that can lose credit of a running stream. */
  lemma ContinueKeepsAdmitted(s: Link, ws: int, c: Conf)
    requires Admitted(s, ws, c.wr) && s.inn.continuing != []
    ensures Admitted(DoContinue(s, c), ws, c.wr)
    ensures s.ending.Live? ==> (Ledger(DoContinue(s, c)) == Ledger(s) <==> Due(s, c) < UINT32_RANGE)
  {
    var a := Announced(Due(s, c), c);
    assert InFlight(DoContinue(s, c)) == InFlight(s);
    AnnouncedLoss(Due(s, c), c);
    if a > 0 { CreditFlow.SumSnoc(s.back, a); }
  }

  lemma AnnouncedLoss(total: nat, c: Conf)
    ensures Announced(total, c) <= total && (Announced(total, c) == total <==> total < UINT32_RANGE)
  {
  }

  predicate SenderStep(e: Event) { e.Reserve? || e.WriteMsg? || e.WriteEnd? || e.Credit? }

  lemma SenderKeepsAdmitted(s: Link, e: Event, ws: int, c: Conf)
    requires Admitted(s, ws, c.wr) && SenderStep(e) && Step(s, e, c).Some?
    ensures Admitted(Step(s, e, c).value, ws, c.wr) && Ledger(Step(s, e, c).value) == Ledger(s)
  {
    match e
    case Reserve(p) => ReserveShifts(s, p);
    case WriteMsg => WriteShifts(s);
    case WriteEnd(ok) => EndShifts(s, ok);
    case Credit => assert InFlight(DoCredit(s)) == InFlight(s);
  }

  lemma StepKeepsAdmitted(s: Link, e: Event, ws: int, c: Conf)
    requires Admitted(s, ws, c.wr) && Step(s, e, c).Some?
    ensures Admitted(Step(s, e, c).value, ws, c.wr)
    ensures Step(s, e, c).value.ending.Live? && (e.Continue? ==> Due(s, c) < UINT32_RANGE) ==>
      s.ending.Live? && Ledger(Step(s, e, c).value) == Ledger(s)
  {
    if SenderStep(e) {
      SenderKeepsAdmitted(s, e, ws, c);
    } else {
      match e
      case Arrive => ArriveKeepsAdmitted(s, ws, c);
      case Pull => assert InFlight(s.(inn := Request(s.inn))) == InFlight(s);
      case Continue => ContinueKeepsAdmitted(s, ws, c);
      case Cancel => assert InFlight(Step(s, Cancel, c).value) == InFlight(s);
    }
  }

  // -- order --

  lemma Reassociate(a: seq<Payload>, p: Payload, b: seq<Payload>)
    ensures a + ([p] + b) == (a + [p]) + b && (a + b) + [p] == a + (b + [p])
  {
  }

  lemma AcceptReceives(s: Link, c: Conf)
    requires Ordered(s) && s.ending.Live? && s.wire != [] && s.wire[0].Data? && !Resets(s, c)
    ensures Received(DoArrive(s, c)) == Received(s) + [s.wire[0].p]
  {
  }

  lemma ArriveKeepsOrdered(s: Link, c: Conf)
    requires Ordered(s) && s.wire != []
    ensures Ordered(DoArrive(s, c))
  {
    var t := DoArrive(s, c);
    ArriveShifts(s, t);
    if s.ending.Live? && s.wire[0].Data? && !Resets(s, c) {
      AcceptReceives(s, c);
      Reassociate(Received(s), s.wire[0].p, InFlight(t));
    } else {
      assert Received(t) == Received(s);
    }
  }

  lemma ContinueReceives(s: Link, c: Conf)
    requires s.inn.continuing != []
    ensures Received(DoContinue(s, c)) == Received(s)
  {
    assert s.taken + [s.inn.continuing[0]] + s.inn.continuing[1..] == s.taken + s.inn.continuing;
  }

  lemma PullReceives(s: Link)
    ensures Received(s.(inn := Request(s.inn))) == Received(s)
  {
    var v := s.inn.queue.values;
    if v != [] { assert s.inn.continuing + [v[0]] + v[1..] == s.inn.continuing + v; }
    var t := s.(inn := Request(s.inn));
    assert Received(t) == s.taken + (t.inn.continuing + t.inn.queue.values);
    assert Received(s) == s.taken + (s.inn.continuing + s.inn.queue.values);
  }

  lemma StepKeepsOrdered(s: Link, e: Event, c: Conf)
    requires Ordered(s) && Step(s, e, c).Some?
    ensures Ordered(Step(s, e, c).value)
  {
    var t := Step(s, e, c).value;
    match e
    case Reserve(p) =>
      ReserveShifts(s, p);
      Reassociate(Received(s), p, InFlight(s));
    case WriteMsg => WriteShifts(s);
    case WriteEnd(ok) => EndShifts(s, ok);
    case Arrive => ArriveKeepsOrdered(s, c);
    case Pull => PullReceives(s);
    case Continue => ContinueReceives(s, c);
    case Credit =>
    case Cancel =>
  }

  lemma ArriveKeepsEndLast(s: Link, c: Conf)
    requires Ordered(s) && EndLast(s) && s.wire != []
    ensures EndLast(DoArrive(s, c))
  {
    var t := DoArrive(s, c);
    if s.ending.Live? && s.wire[0].Fin? {
      assert s.wire == [s.wire[0]] && Payloads(s.wire) == Payloads(s.wire[1..]) == [];
      assert InFlight(s) == [] && Received(t) == Received(s);
    }
  }

  lemma StepKeepsEndLast(s: Link, e: Event, c: Conf)
    requires Ordered(s) && EndLast(s) && Step(s, e, c).Some?
    ensures EndLast(Step(s, e, c).value)
  {
    match e
    case Reserve(p) =>
    case WriteMsg =>
    case WriteEnd(ok) =>
    case Arrive => ArriveKeepsEndLast(s, c);
    case Pull => PullReceives(s);
    case Continue => ContinueReceives(s, c);
    case Credit =>
    case Cancel =>
  }

  lemma StepKeepsInv(s: Link, e: Event, ws: int, c: Conf)
    requires Inv(s, ws, c.wr) && Step(s, e, c).Some?
    ensures Inv(Step(s, e, c).value, ws, c.wr)
  {
    StepKeepsAdmitted(s, e, ws, c);
    StepKeepsOrdered(s, e, c);
    StepKeepsEndLast(s, e, c);
  }

  lemma {:induction false} RunKeepsInv(s: Link, es: seq<Event>, ws: int, c: Conf)
    requires Inv(s, ws, c.wr) && Run(s, es, c).Some?
    ensures Inv(Run(s, es, c).value, ws, c.wr)
    decreases |es|
  {
    if es != [] {
      StepKeepsInv(s, es[0], ws, c);
      RunKeepsInv(Step(s, es[0], c).value, es[1..], ws, c);
    }
  }

  lemma ReachedInv(ws: int, c: Conf, es: seq<Event>, s: Link)
    requires Reaches(ws, c, es, s)
    ensures Inv(s, ws, c.wr)
  {
    RunKeepsInv(Init(ws), es, ws, c);
  }

  // ---- delivery ----

  /** A pull made now reports a clean end. */
  predicate ReportsEnd(s: Link) { s.inn.queue.values == [] && s.inn.queue.error.None? && s.inn.queue.ended }

  /** A pull made now reports an error. */
  predicate ReportsError(s: Link) { s.inn.queue.values == [] && s.inn.queue.error.Some? }

  /** Over every run: pulls take payloads in the order sent, none skipped or repeated. Unless
      the caller cancelled, a clean end is reported only after the peer's OK and
      after all payloads were given to earlier pulls; an error only after the
      peer's error and all payloads, or after an overflow. */
  lemma DeliveryInOrder(ws: int, c: Conf, es: seq<Event>, s: Link)
    requires Reaches(ws, c, es, s)
    ensures s.taken + s.inn.continuing <= s.sent
    ensures ReportsEnd(s) && !s.ending.ByCaller? ==> s.ending == ByPeer(true) && s.taken + s.inn.continuing == s.sent
    ensures ReportsError(s) && !s.ending.ByOverflow? && !s.ending.ByCaller? ==>
      s.ending == ByPeer(false) && s.taken + s.inn.continuing == s.sent
  {
    ReachedInv(ws, c, es, s);
    assert s.taken + s.inn.continuing <= Received(s);
    assert s.inn.queue.values == [] ==> Received(s) == s.taken + s.inn.continuing;
  }

  // ---- false resets ----

  /** When a message arrives, everything before it still fits the sender's window. */
  lemma WindowForbidsReset(s: Link, ws: int, c: Conf)
    requires Admitted(s, ws, c.wr) && ws <= c.wr + 1
    ensures !Resets(s, c)
  {
    if s.wire != [] && s.wire[0].Data? { assert InFlight(s) != []; }
  }

  lemma StepNeverResets(s: Link, e: Event, ws: int, c: Conf)
    requires Admitted(s, ws, c.wr) && ws <= c.wr + 1 && !s.ending.ByOverflow? && Step(s, e, c).Some?
    ensures !Step(s, e, c).value.ending.ByOverflow?
  {
    WindowForbidsReset(s, ws, c);
    if Step(s, e, c).value.ending.ByOverflow? { OnlyResetsOverflow(s, e, c); }
  }

  lemma OnlyResetsOverflow(s: Link, e: Event, c: Conf)
    requires Step(s, e, c).Some? && Step(s, e, c).value.ending.ByOverflow?
    ensures s.ending.ByOverflow? || Resets(s, c)
  {
  }

  lemma {:induction false} NeverReset(s: Link, es: seq<Event>, ws: int, c: Conf)
    requires Inv(s, ws, c.wr) && ws <= c.wr + 1 && !s.ending.ByOverflow? && Run(s, es, c).Some?
    ensures !Run(s, es, c).value.ending.ByOverflow?
    decreases |es|
  {
    if es != [] {
      StepNeverResets(s, es[0], ws, c);
      StepKeepsInv(s, es[0], ws, c);
      NeverReset(Step(s, es[0], c).value, es[1..], ws, c);
    }
  }

  predicate Within(es: seq<Event>, m: nat) { forall i :: 0 <= i < |es| && es[i].Reserve? ==> |es[i].p| <= m }

  const ONE_BYTE: Payload := [0]

  /** k one-byte messages have arrived and nobody pulled. */
  ghost predicate Filled(s: Link, ws: int, k: nat) {
    && s.window == ws - k && s.reserved.None? && !s.done && s.wire == [] && s.ending.Live?
    && s.inn.buffered == k
  }

  /** Sends bytes until one arrives on a backlog above the window. */
  lemma {:induction false} FillUp(s: Link, ws: int, c: Conf, k: nat) returns (es: seq<Event>, t: Link)
    requires Filled(s, ws, k) && k <= c.wr + 1 && ws >= c.wr + 2
    ensures Run(s, es, c) == Some(t) && t.ending.ByOverflow? && Within(es, 1)
    decreases c.wr + 1 - k
  {
    var a := DoReserve(s, ONE_BYTE);
    var b := DoWrite(a);
    var d := DoArrive(b, c);
    var rest: seq<Event> := [];
    t := d;
    if k <= c.wr { rest, t := FillUp(d, ws, c, k + 1); }
    RunCons(b, Arrive, d, rest, c);
    RunCons(a, WriteMsg, b, [Arrive] + rest, c);
    RunCons(s, Reserve(ONE_BYTE), a, [WriteMsg] + ([Arrive] + rest), c);
    es := [Reserve(ONE_BYTE)] + ([WriteMsg] + ([Arrive] + rest));
  }

  /** The sharp bound for the TypeScript receiver: some run of window-obeying sends is reset
      exactly when the sender's window exceeds the receiver's by two or more. */
  lemma FalseResetIff(ws: int, c: Conf, m: nat)
    requires ws > 0 && c.wr > 0 && m > 0
    ensures (exists es, s :: Within(es, m) && Reaches(ws, c, es, s) && s.ending.ByOverflow?) <==> ws >= c.wr + 2
  {
    if ws >= c.wr + 2 {
      var es, s := FillUp(Init(ws), ws, c, 0);
      assert Within(es, m) && Reaches(ws, c, es, s) && s.ending.ByOverflow?;
    } else {
      forall es, s | Reaches(ws, c, es, s) ensures !s.ending.ByOverflow? {
        NeverReset(Init(ws), es, ws, c);
      }
    }
  }

  /** An arrival does to the receiver what the mux does with the MSG frame, reset included. */
  lemma ArrivesAsInMux(c: TsMux.Config, x: TsMux.Mux, id: Uint32, s: Link, encoder: Encoder)
    requires id in x.registered && id in x.streams && !x.streams[id].fate.finished
    requires s.inn == x.streams[id].inn && s.ending.Live? && s.wire != [] && s.wire[0].Data?
    ensures var (y, t) := (TsMux.HandleFrame(c, x, Msg(id, s.wire[0].p)), DoArrive(s, Conf(c.window, encoder)));
            && id in y.streams && y.streams[id].inn == t.inn
            && y.streams[id].fate.finished == !t.ending.Live? && (id in y.registered <==> t.ending.Live?)
  {
    if s.inn.buffered > c.window { ResetKeepsInn(c, x, id); }
  }

  /** The connection may fail inside the reset hook; the marked stream is left alone. */
  lemma ResetKeepsInn(c: TsMux.Config, x: TsMux.Mux, id: nat)
    requires id in x.streams
    ensures var s := TsMux.ResetHook(c, x, id).streams[id]; s.inn == x.streams[id].inn && s.fate.finished
  {
  }

  // ---- conservation ----

  ghost predicate Small(s: Link, m: nat) {
    && (forall p :: p in s.sent ==> |p| <= m)
    && s.window >= 1 - m
  }

  lemma StepKeepsSmall(s: Link, e: Event, c: Conf, m: nat)
    requires Small(s, m) && Step(s, e, c).Some? && (e.Reserve? ==> |e.p| <= m)
    ensures Small(Step(s, e, c).value, m)
  {
    if e.Reserve? { assert forall p :: p in s.sent + [e.p] ==> p in s.sent || p == e.p; }
  }

  /** Small payloads keep every announced total inside uint32. */
  lemma SmallMeansFits(s: Link, ws: int, c: Conf, m: nat)
    requires Inv(s, ws, c.wr) && Counted(s) && Small(s, m) && CreditFlow.NoWrap(ws, c.wr, m) && s.inn.continuing != []
    ensures Due(s, c) < UINT32_RANGE
  {
    var p := s.inn.continuing[0];
    assert Received(s)[|s.taken|] == p && p in s.sent;
    assert TotalBytes(s.inn.continuing) == |p| + TotalBytes(s.inn.continuing[1..]);
  }

  /** bufferedBytes is the backlog and the payloads of unfinished pulls. */
  ghost predicate Counted(s: Link) {
    s.inn.buffered == TotalBytes(s.inn.queue.values) + TotalBytes(s.inn.continuing)
  }

  lemma StepKeepsCounted(s: Link, e: Event, c: Conf)
    requires Ordered(s) && Counted(s) && Step(s, e, c).Some?
    ensures Counted(Step(s, e, c).value)
  {
    match e
    case Reserve(_) => case WriteMsg => case WriteEnd(_) => case Credit => case Cancel =>
    case Continue => assert TotalBytes(s.inn.continuing) == |s.inn.continuing[0]| + TotalBytes(s.inn.continuing[1..]);
    case Arrive => ArriveKeepsCounted(s, c);
    case Pull => if s.inn.queue.values != [] { TotalBytesSnoc(s.inn.continuing, s.inn.queue.values[0]); }
  }

  lemma ArriveKeepsCounted(s: Link, c: Conf)
    requires Ordered(s) && Counted(s) && s.wire != []
    ensures Counted(DoArrive(s, c))
  {
    if s.ending.Live? && s.wire[0].Data? && !Resets(s, c) {
      AcceptCounted(s.inn, s.wire[0].p);
    }
  }

  lemma AcceptCounted(i: In, p: Payload)
    requires i.buffered == TotalBytes(i.queue.values) + TotalBytes(i.continuing) && !Terminated(i.queue)
    ensures var j := TsStream.Arrive(i, p); j.buffered == TotalBytes(j.queue.values) + TotalBytes(j.continuing)
  {
    TotalBytesSnoc(i.queue.values, p);
    TotalBytesSnoc(i.continuing, p);
  }

  lemma {:induction false} LedgerKept(s: Link, es: seq<Event>, ws: int, c: Conf, m: nat)
    requires Books(s, ws, c.wr, m) && Within(es, m) && CreditFlow.NoWrap(ws, c.wr, m) && Run(s, es, c).Some?
    ensures Run(s, es, c).value.refused == s.refused
    ensures Run(s, es, c).value.ending.Live? ==> s.ending.Live? && Ledger(Run(s, es, c).value) == Ledger(s)
    decreases |es|
  {
    if es != [] {
      StepKeepsBooks(s, es[0], ws, c, m);
      StepKeepsAdmitted(s, es[0], ws, c);
      FittingStepRefusesNothing(s, es[0], c);
      LedgerKept(Step(s, es[0], c).value, es[1..], ws, c, m);
    }
  }

  ghost predicate Books(s: Link, ws: int, wr: int, m: nat) { Inv(s, ws, wr) && Counted(s) && Small(s, m) }

  lemma StepKeepsBooks(s: Link, e: Event, ws: int, c: Conf, m: nat)
    requires Books(s, ws, c.wr, m) && CreditFlow.NoWrap(ws, c.wr, m)
    requires Step(s, e, c).Some? && (e.Reserve? ==> |e.p| <= m)
    ensures Books(Step(s, e, c).value, ws, c.wr, m) && (e.Continue? ==> Due(s, c) < UINT32_RANGE)
  {
    if e.Continue? { SmallMeansFits(s, ws, c, m); }
    StepKeepsInv(s, e, ws, c);
    StepKeepsCounted(s, e, c);
    StepKeepsSmall(s, e, c, m);
  }

  lemma FittingStepRefusesNothing(s: Link, e: Event, c: Conf)
    requires Step(s, e, c).Some? && (e.Continue? ==> Due(s, c) < UINT32_RANGE)
    ensures Step(s, e, c).value.refused == s.refused
  {
  }

  /** Every byte of the initial window of a running stream is accounted for. */
  lemma Conservation(ws: int, c: Conf, es: seq<Event>, s: Link, m: nat)
    requires Reaches(ws, c, es, s) && s.ending.Live? && Within(es, m) && CreditFlow.NoWrap(ws, c.wr, m)
    ensures s.window + (if s.reserved.Some? then |s.reserved.value| else 0) + TotalBytes(Payloads(s.wire))
            + TotalBytes(s.inn.queue.values) + TotalBytes(s.inn.continuing)
            + s.inn.pending + CreditFlow.Sum(s.back) == ws
  {
    LedgerKept(Init(ws), es, ws, c, m);
    RunKeepsCounted(Init(ws), es, ws, c);
    FlightBytes(s);
  }

  lemma FlightBytes(s: Link)
    ensures TotalBytes(InFlight(s))
            == TotalBytes(Payloads(s.wire)) + if s.reserved.Some? then |s.reserved.value| else 0
  {
    if s.reserved.Some? {
      TotalBytesSnoc(Payloads(s.wire), s.reserved.value);
    } else {
      assert InFlight(s) == Payloads(s.wire);
    }
  }

  lemma {:induction false} RunKeepsCounted(s: Link, es: seq<Event>, ws: int, c: Conf)
    requires Inv(s, ws, c.wr) && Counted(s) && Run(s, es, c).Some?
    ensures Counted(Run(s, es, c).value)
    decreases |es|
  {
    if es != [] {
      StepKeepsInv(s, es[0], ws, c);
      StepKeepsCounted(s, es[0], c);
      RunKeepsCounted(Step(s, es[0], c).value, es[1..], ws, c);
    }
  }

  // ---- round trips through a resting link ----

  /** Nothing is under way and the stream is open. */
  ghost predicate Resting(s: Link, c: Conf) {
    && s.reserved.None? && !s.done && s.wire == [] && s.ending.Live? && s.back == []
    && s.inn.queue.values == [] && s.inn.queue.waiters == [] && !Terminated(s.inn.queue)
    && s.inn.continuing == [] && s.inn.buffered == 0 && s.inn.pending < Threshold(c.wr)
  }

  /** The message has arrived and a pull has it. */
  function InHand(s: Link, p: Payload): Link {
    s.(window := s.window - |p|, sent := s.sent + [p],
       inn := Request(TsStream.Arrive(s.inn, p)))
  }

  /** Carry one message to a pull, and go on with the rest. */
  function Inward(p: Payload, rest: seq<Event>): seq<Event> {
    [Reserve(p)] + ([WriteMsg] + ([Arrive] + ([Pull] + rest)))
  }

  lemma InwardWithin(p: Payload, rest: seq<Event>)
    requires Within(rest, 0)
    ensures Within(Inward(p, rest), |p|)
  {
  }

  lemma TripArrives(s: Link, p: Payload, c: Conf, rest: seq<Event>)
    requires Resting(s, c) && s.window > 0 && c.wr > 0
    ensures Run(s, Inward(p, rest), c) == Run(InHand(s, p), rest, c)
  {
    var a := DoReserve(s, p);
    var b := DoWrite(a);
    var d := DoArrive(b, c);
    assert d.wire == s.wire;
    RunCons(d, Pull, InHand(s, p), rest, c);
    RunCons(b, Arrive, d, [Pull] + rest, c);
    RunCons(a, WriteMsg, b, [Arrive] + ([Pull] + rest), c);
    RunCons(s, Reserve(p), a, [WriteMsg] + ([Arrive] + ([Pull] + rest)), c);
  }

  /** Where a round trip ends: rested again, with the window and pending total it left. */
  ghost predicate Tripped(s: Link, t: Link, p: Payload, c: Conf) {
    var total := s.inn.pending + |p|;
    var flushed := |p| > 0 && total >= Threshold(c.wr);
    && Resting(t, c)
    && t.window == s.window - |p| + (if flushed then Announced(total, c) else 0)
    && t.inn.pending == (if flushed then 0 else total)
    && t.refused == (if flushed && c.encoder.Rejects? && total >= UINT32_RANGE then s.refused + [p] else s.refused)
  }

  lemma TripContinues(s: Link, p: Payload, c: Conf) returns (es: seq<Event>, t: Link)
    requires Resting(s, c) && s.window > 0
    ensures Run(InHand(s, p), es, c) == Some(t) && Tripped(s, t, p, c) && Within(es, 0)
  {
    var a := InHand(s, p);
    assert a.inn.continuing == [p];
    var b := DoContinue(a, c);
    if b.back == [] {
      t := b;
      RunCons(a, Continue, b, [], c);
      es := [Continue] + [];
    } else {
      t := DoCredit(b);
      RunCons(b, Credit, t, [], c);
      RunCons(a, Continue, b, [Credit] + [], c);
      es := [Continue] + ([Credit] + []);
    }
  }

  lemma Trip(s: Link, p: Payload, c: Conf) returns (es: seq<Event>, t: Link)
    requires Resting(s, c) && s.window > 0 && c.wr > 0
    ensures Run(s, es, c) == Some(t) && Tripped(s, t, p, c) && Within(es, |p|)
  {
    var rest;
    rest, t := TripContinues(s, p, c);
    TripArrives(s, p, c, rest);
    InwardWithin(p, rest);
    es := Inward(p, rest);
  }

  /** Sends and receives k single bytes, too few to bring credit back. */
  lemma {:induction false} Drip(s: Link, c: Conf, k: nat) returns (es: seq<Event>, t: Link)
    requires Resting(s, c) && c.wr > 0 && k <= s.window && s.inn.pending + k < Threshold(c.wr)
    ensures Run(s, es, c) == Some(t) && Resting(t, c) && Within(es, 1) && t.refused == s.refused
    ensures t.window == s.window - k && t.inn.pending == s.inn.pending + k
    decreases k
  {
    if k == 0 {
      es, t := [], s;
    } else {
      var one, u := Trip(s, ONE_BYTE, c);
      var rest;
      rest, t := Drip(u, c, k - 1);
      RunConcat(s, one, rest, c);
      es := one + rest;
    }
  }

  /** k single bytes, then one payload that makes the coalesced total pass uint32: the
      window falls by 2^32 or more, and a rejecting encoder fails the recv. */
  lemma WrappingRound(s: Link, c: Conf, k: nat, m: nat) returns (es: seq<Event>, t: Link)
    requires Resting(s, c) && c.wr > 0 && s.inn.pending == 0 && k < s.window && k < Threshold(c.wr) && m > 0
    requires k + m >= UINT32_RANGE && k + m >= Threshold(c.wr)
    ensures Run(s, es, c) == Some(t) && Resting(t, c) && Within(es, m)
    ensures t.inn.pending == 0 && t.window <= s.window - UINT32_RANGE
    ensures c.encoder.Rejects? ==> |t.refused| == |s.refused| + 1
  {
    var big: Payload := seq(m, _ => 0);
    var drip, u := Drip(s, c, k);
    var last;
    last, t := Trip(u, big, c);
    RunConcat(s, drip, last, c);
    es := drip + last;
  }

  /** Conservation holds of every run with payloads up to m, and no recv ever fails to
      announce its credit, exactly when the largest coalesced total fits uint32.
      A truncating encoder never fails a recv. */
  lemma ConservationIff(ws: int, c: Conf, m: nat)
    requires ws > 0 && c.wr > 0 && m > 0
    ensures (forall es, s :: Within(es, m) && Reaches(ws, c, es, s) && s.ending.Live? ==> Ledger(s) == ws)
            <==> CreditFlow.NoWrap(ws, c.wr, m)
    ensures (forall es, s :: Within(es, m) && Reaches(ws, c, es, s) ==> s.refused == [])
            <==> c.encoder.Truncates? || CreditFlow.NoWrap(ws, c.wr, m)
  {
    if CreditFlow.NoWrap(ws, c.wr, m) {
      forall es, s | Within(es, m) && Reaches(ws, c, es, s)
        ensures s.refused == [] && (s.ending.Live? ==> Ledger(s) == ws)
      {
        LedgerKept(Init(ws), es, ws, c, m);
      }
    } else {
      var k := (if ws < Threshold(c.wr) then ws else Threshold(c.wr)) - 1;
      var es, s := WrappingRound(Init(ws), c, k, m);
      assert Within(es, m) && Reaches(ws, c, es, s) && Ledger(s) != ws && (c.encoder.Rejects? ==> s.refused != []);
      if c.encoder.Truncates? {
        forall es, s | Reaches(ws, c, es, s) ensures s.refused == [] { NeverRefuses(Init(ws), es, c); }
      }
    }
  }

  lemma {:induction false} NeverRefuses(s: Link, es: seq<Event>, c: Conf)
    requires c.encoder.Truncates? && Run(s, es, c).Some?
    ensures Run(s, es, c).value.refused == s.refused
    decreases |es|
  {
    if es != [] { NeverRefuses(Step(s, es[0], c).value, es[1..], c); }
  }

  // ---- progress ----

  /** Nothing is left to write, carry, pull, finish or credit. */
  predicate Quiet(s: Link) {
    s.reserved.None? && s.wire == [] && s.inn.queue.values == [] && s.inn.continuing == [] && s.back == []
  }

  /** The steps that work off what the link holds; the receiver keeps pulling what there is. */
  predicate Internal(s: Link, e: Event) {
    e.WriteMsg? || e.Arrive? || e.Continue? || e.Credit? || (e.Pull? && s.inn.queue.values != [])
  }

  /** Each stage a payload still has to pass costs one. */
  function Work(s: Link): nat {
    (if s.reserved.Some? then 6 else 0) + 5 * |s.wire| + 4 * |s.inn.queue.values| + 3 * |s.inn.continuing| + |s.back|
  }

  /** While something is left an internal step is enabled, and each one brings the end nearer. */
  lemma WorksOff(s: Link, c: Conf)
    ensures Quiet(s) <==> forall e :: Internal(s, e) ==> Step(s, e, c).None?
    ensures forall e :: Internal(s, e) && Step(s, e, c).Some? ==> Work(Step(s, e, c).value) < Work(s)
  {
    forall e | Internal(s, e) && Step(s, e, c).Some? ensures Work(Step(s, e, c).value) < Work(s) {
      WorkDecreases(s, e, c);
    }
    if forall e :: Internal(s, e) ==> Step(s, e, c).None? {
      assert !Internal(s, Pull) by { assert Step(s, Pull, c).Some?; }
      assert Step(s, WriteMsg, c).None? && Step(s, Arrive, c).None?;
      assert Step(s, Continue, c).None? && Step(s, Credit, c).None?;
    }
  }

  lemma WorkDecreases(s: Link, e: Event, c: Conf)
    requires Internal(s, e) && Step(s, e, c).Some?
    ensures Work(Step(s, e, c).value) < Work(s)
  {
    match e
    case WriteMsg =>
    case Arrive =>
      var t := DoArrive(s, c);
      assert 4 * |t.inn.queue.values| + 3 * |t.inn.continuing| <= 4 * |s.inn.queue.values| + 3 * |s.inn.continuing| + 4;
    case Pull =>
    case Continue =>
    case Credit =>
  }

  /** A send is blocked on an open stream and nothing the link still holds can change that. */
  ghost predicate Stalled(s: Link) { s.ending.Live? && !s.done && s.window <= 0 && Quiet(s) }

  lemma {:induction false} StalledForever(s: Link, es: seq<Event>, c: Conf)
    requires s.window <= 0 && s.reserved.None? && Payloads(s.wire) == [] && s.inn.queue.values == []
    requires s.inn.continuing == [] && s.back == [] && Run(s, es, c).Some?
    ensures Run(s, es, c).value.window <= 0 && Run(s, es, c).value.sent == s.sent
    decreases |es|
  {
    if es != [] {
      StepKeepsDry(s, es[0], c);
      StalledForever(Step(s, es[0], c).value, es[1..], c);
    }
  }

  lemma StepKeepsDry(s: Link, e: Event, c: Conf)
    requires s.window <= 0 && s.reserved.None? && Payloads(s.wire) == [] && s.inn.queue.values == []
    requires s.inn.continuing == [] && s.back == [] && Step(s, e, c).Some?
    ensures var t := Step(s, e, c).value;
            && t.window <= 0 && t.reserved.None? && Payloads(t.wire) == [] && t.inn.queue.values == []
            && t.inn.continuing == [] && t.back == [] && t.sent == s.sent
  {
    if e.WriteEnd? { PayloadsSnoc(s.wire, Fin(e.ok)); }
  }

  /** A resting link whose window is below the threshold, or whose coalesced credit can pass
      uint32, can be driven into a stall. */
  lemma {:induction false} StallFrom(s: Link, c: Conf, m: nat) returns (es: seq<Event>, t: Link)
    requires Resting(s, c) && c.wr > 0 && s.inn.pending == 0 && m > 0
    requires s.window < Threshold(c.wr) || Threshold(c.wr) - 1 + m >= UINT32_RANGE
    ensures Run(s, es, c) == Some(t) && Within(es, m) && Stalled(t)
    decreases if s.window > 0 then s.window else 0
  {
    if s.window <= 0 {
      es, t := [], s;
    } else if s.window < Threshold(c.wr) {
      es, t := Drip(s, c, s.window);
    } else {
      var round, u := WrappingRound(s, c, Threshold(c.wr) - 1, m);
      var rest;
      rest, t := StallFrom(u, c, m);
      RunConcat(s, round, rest, c);
      es := round + rest;
    }
  }

  /** The sharp bound for the TypeScript receiver, where credit comes back only after a
      pull's continuation has run: a permanent stall is reachable exactly when the
      sender's window is below the flush threshold, or a coalesced total can
      pass uint32, whatever the encoder does with it. */
  lemma StallIff(ws: int, c: Conf, m: nat)
    requires ws > 0 && c.wr > 0 && m > 0
    ensures (exists es, s :: Within(es, m) && Reaches(ws, c, es, s) && Stalled(s))
            <==> ws < Threshold(c.wr) || !CreditFlow.NoWrap(ws, c.wr, m)
  {
    if ws < Threshold(c.wr) || !CreditFlow.NoWrap(ws, c.wr, m) {
      var es, s := StallFrom(Init(ws), c, m);
      assert Within(es, m) && Reaches(ws, c, es, s) && Stalled(s);
    } else {
      forall es, s | Within(es, m) && Reaches(ws, c, es, s) ensures !Stalled(s) {
        if Stalled(s) {
          ReachedInv(ws, c, es, s);
          Conservation(ws, c, es, s, m);
        }
      }
    }
  }
}
