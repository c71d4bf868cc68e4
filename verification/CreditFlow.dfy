/** Flow control of one stream direction, end to end: a sender, a FIFO wire
    carrying MSG/HALF_CLOSE/END, a receiver, and a FIFO wire carrying the
    credit back. Every step is one critical section or one channel operation
    of wsrpc/stream.go, so reservation, write, arrival, pop, accounting and
    update write of different messages interleave freely. */
module CreditFlow {
  import opened Frames
  import opened GoStream

  /** wsrpc/pipe.go: both directions are channels of capacity 16. */
  const WIRE_CAPACITY := 16

  /** Where the single receiver stands between the locked sections of one
      Recv: outside, holding a popped payload not yet accounted, or holding
      a credit delta not yet written. */
  datatype RecvPc = Idle | Popped(p: Payload) | Crediting(p: Payload, delta: nat)

  datatype Link = Link(
    snd: StreamState,
    reserved: Option<Payload>,   // SendRaw took credit, its frame is not written yet
    finished: bool,              // END was written: the sender is done
    wire: seq<Frame>,
    registered: bool,            // the receiving mux still routes to the stream
    rcv: StreamState,
    pc: RecvPc,
    back: seq<nat>,              // WINDOW_UPDATE deltas in flight
    overflowed: bool,
    sent: seq<Payload>,          // payloads SendRaw accepted, in order
    got: seq<Payload>,           // payloads Recv returned, in order
    closedAt: Option<nat>)       // how many payloads preceded HALF_CLOSE

  datatype Event =
    | Reserve(p: Payload)
    | WriteMsg
    | CloseSend
    | WriteEnd(st: Status)
    | Arrive
    | Pop
    | Account
    | WriteUpdate
    | Credit
    | ReportEof                  // Recv returns io.EOF because the peer half-closed
    | ReportEnd                  // Recv returns the outcome of the terminal frame

  function Init(ws: int, wr: int): Link
    requires ws > 0 && wr > 0
  {
    Link(NewStream(1, ws, map[]), None, false, [], true, NewStream(1, wr, map[]), Idle, [], false, [], [], None)
  }

  // ---- the sender goroutine ----

  predicate CanReserve(s: Link) { s.reserved.None? && !s.finished && s.snd.sendWindow > 0 }

  function DoReserve(s: Link, p: Payload): Link
    requires CanReserve(s)
  {
    s.(snd := GoStream.Reserve(s.snd, |p|), reserved := Some(p), sent := s.sent + [p])
  }

  predicate CanWrite(s: Link) { s.reserved.Some? && |s.wire| < WIRE_CAPACITY }

  function DoWrite(s: Link): Link
    requires CanWrite(s)
  {
    s.(wire := s.wire + [Msg(s.snd.id, s.reserved.value)], reserved := None)
  }

  predicate CanClose(s: Link) { s.reserved.None? && !s.finished && !s.snd.sendDone && |s.wire| < WIRE_CAPACITY }

  function DoClose(s: Link): Link
    requires CanClose(s)
  {
    s.(snd := s.snd.(sendDone := true), wire := s.wire + [HalfClose(s.snd.id)], closedAt := Some(|s.sent|))
  }

  predicate CanEnd(s: Link) { s.reserved.None? && !s.finished && |s.wire| < WIRE_CAPACITY }

  function DoEnd(s: Link, st: Status): Link
    requires CanEnd(s)
  {
    s.(snd := FailWith(s.snd, st), finished := true, wire := s.wire + [End(s.snd.id, Some(st), None)])
  }

  // ---- the receiving read loop ----

  /** mux.route for one stream: a frame for an unregistered stream is ignored. */
  function Routed(s: Link, f: Frame): StreamState {
    if !s.registered then s.rcv
    else match f
      case Msg(_, p) => if Overflows(s.rcv) then FailWith(s.rcv, OVERFLOW) else TryDeliver(s.rcv, p)
      case HalfClose(_) => CloseInbound(s.rcv)
      case End(_, _, _) => SignalEnd(s.rcv, f)
      case _ => s.rcv
  }

  predicate Resets(s: Link, f: Frame) { s.registered && f.Msg? && Overflows(s.rcv) }

  function DoArrive(s: Link): Link
    requires s.wire != []
  {
    var f := s.wire[0];
    s.(wire := s.wire[1..],
       rcv := Routed(s, f),
       registered := s.registered && !f.End? && !Resets(s, f),
       overflowed := s.overflowed || Resets(s, f))
  }

  // ---- the receiver goroutine ----

  predicate CanPop(s: Link) { s.pc.Idle? && s.rcv.recvItems != [] }

  function DoPop(s: Link): Link
    requires CanPop(s)
  {
    s.(rcv := PopRecv(s.rcv), pc := Popped(s.rcv.recvItems[0]))
  }

  function DoAccount(s: Link): Link
    requires s.pc.Popped?
  {
    var (p, delta) := (s.pc.p, CreditDelta(s.rcv, |s.pc.p|));
    s.(rcv := AccountCredit(s.rcv, |p|),
       pc := if delta == 0 then Idle else Crediting(p, delta),
       got := if delta == 0 then s.got + [p] else s.got)
  }

  predicate CanUpdate(s: Link) { s.pc.Crediting? && |s.back| < WIRE_CAPACITY }

  function DoUpdate(s: Link): Link
    requires CanUpdate(s)
  {
    s.(back := s.back + [s.pc.delta], got := s.got + [s.pc.p], pc := Idle)
  }

  function DoCredit(s: Link): Link
    requires s.back != []
  {
    s.(snd := CreditSend(s.snd, s.back[0]), back := s.back[1..])
  }

  predicate CanReportEof(s: Link) { s.pc.Idle? && s.rcv.halfClosed && s.rcv.recvItems == [] }

  predicate CanReportEnd(s: Link) { s.pc.Idle? && s.rcv.ended && s.rcv.recvItems == [] }

  function DoReportEnd(s: Link): Link { s.(rcv := RecvEnded(s.rcv)) }

  /** None when the step is not enabled. */
  function Step(s: Link, e: Event): Option<Link> {
    match e
    case Reserve(p) => if CanReserve(s) then Some(DoReserve(s, p)) else None
    case WriteMsg => if CanWrite(s) then Some(DoWrite(s)) else None
    case CloseSend => if CanClose(s) then Some(DoClose(s)) else None
    case WriteEnd(st) => if CanEnd(s) then Some(DoEnd(s, st)) else None
    case Arrive => if s.wire != [] then Some(DoArrive(s)) else None
    case Pop => if CanPop(s) then Some(DoPop(s)) else None
    case Account => if s.pc.Popped? then Some(DoAccount(s)) else None
    case WriteUpdate => if CanUpdate(s) then Some(DoUpdate(s)) else None
    case Credit => if s.back != [] then Some(DoCredit(s)) else None
    case ReportEof => if CanReportEof(s) then Some(s) else None
    case ReportEnd => if CanReportEnd(s) then Some(DoReportEnd(s)) else None
  }

  function Run(s: Link, es: seq<Event>): Option<Link>
    decreases |es|
  {
    if es == [] then Some(s)
    else
      var t := Step(s, es[0]);
      if t.None? then None else Run(t.value, es[1..])
  }

  lemma {:induction false} RunConcat(s: Link, a: seq<Event>, b: seq<Event>)
    requires Run(s, a).Some?
    ensures Run(s, a + b) == Run(Run(s, a).value, b)
    decreases |a|
  {
    if a == [] {
      assert a + b == b;
    } else {
      assert (a + b)[1..] == a[1..] + b && (a + b)[0] == a[0];
      RunConcat(Step(s, a[0]).value, a[1..], b);
    }
  }

  lemma RunCons(s: Link, e: Event, t: Link, es: seq<Event>)
    requires Step(s, e) == Some(t)
    ensures Run(s, [e] + es) == Run(t, es)
  {
    assert ([e] + es)[1..] == es;
  }

  // ---- quantities ----

  function Sum(ds: seq<nat>): nat {
    if ds == [] then 0 else ds[0] + Sum(ds[1..])
  }

  lemma {:induction false} SumSnoc(ds: seq<nat>, d: nat)
    ensures Sum(ds + [d]) == Sum(ds) + d
  {
    if ds == [] {
      assert ds + [d] == [d];
      assert Sum([d]) == d + Sum([d][1..]);
    } else {
      assert (ds + [d])[1..] == ds[1..] + [d];
      SumSnoc(ds[1..], d);
    }
  }

  /** MSG payloads that left the window but have not arrived. */
  function InFlight(s: Link): seq<Payload> {
    Messages(s.wire) + (if s.reserved.Some? then [s.reserved.value] else [])
  }

  function PcPayload(pc: RecvPc): seq<Payload> {
    if pc.Idle? then [] else [pc.p]
  }

  function PcBytes(pc: RecvPc): nat {
    match pc
    case Idle => 0
    case Popped(p) => |p|
    case Crediting(_, delta) => delta
  }

  /** Bytes that arrived and whose credit is not back yet: backlog, popped and
      unaccounted, pending, unwritten delta, delta in flight. */
  function Held(s: Link): int {
    s.rcv.recvBytes + PcBytes(s.pc) + s.rcv.pendingCredit + Sum(s.back)
  }

  /** Everything the initial window has been turned into. */
  function Ledger(s: Link): int {
    s.snd.sendWindow + TotalBytes(InFlight(s)) + Held(s)
  }

  // ---- the invariant ----

  ghost predicate Counters(s: Link, wr: int) {
    && wr > 0
    && s.rcv.initialWindow == wr
    && s.rcv.recvBytes == TotalBytes(s.rcv.recvItems)
    && 0 <= s.rcv.pendingCredit < Threshold(wr)
  }

  /** The window was positive when the newest in-flight message was admitted,
      so everything older than it was below the window. */
  ghost predicate Admitted(s: Link, ws: int) {
    && Ledger(s) <= ws
    && (InFlight(s) != [] ==> Held(s) + TotalBytes(InFlight(s)[..|InFlight(s)| - 1]) <= ws - 1)
  }

  ghost predicate Delivered(s: Link) {
    s.got + PcPayload(s.pc) + s.rcv.recvItems + InFlight(s) == s.sent
  }

  /** How many payloads reached the receiving stream. */
  function Arrived(s: Link): nat {
    |s.got| + |PcPayload(s.pc)| + |s.rcv.recvItems|
  }

  ghost predicate HalfCloseOrder(s: Link) {
    && (s.snd.sendDone <==> s.closedAt.Some?)
    && (s.closedAt.Some? ==> s.closedAt.value <= |s.sent|)
    && (s.rcv.halfClosed ==> s.closedAt.Some? && s.closedAt.value <= Arrived(s))
    && (forall i :: 0 <= i < |s.wire| && s.wire[i].HalfClose? ==>
          s.closedAt == Some(Arrived(s) + |Messages(s.wire[..i])|))
  }

  ghost predicate EndOrder(s: Link) {
    && (forall i :: 0 <= i < |s.wire| ==> s.wire[i].Msg? || s.wire[i].HalfClose? || s.wire[i].End?)
    && (forall i :: 0 <= i < |s.wire| && s.wire[i].End? ==>
          i == |s.wire| - 1 && s.finished && s.wire[i].status == s.snd.endSt)
    && (s.finished ==> s.reserved.None?)
    && (s.rcv.ended || s.rcv.cancelled || !s.registered ==>
          && s.finished && s.wire == [] && s.rcv.ended && !s.registered
          && s.rcv.endFrame.Some? && s.rcv.endFrame.value.End? && s.rcv.endFrame.value.status == s.snd.endSt)
  }

  ghost predicate Money(s: Link, ws: int, wr: int) {
    Counters(s, wr) && Admitted(s, ws)
  }

  ghost predicate Order(s: Link) {
    Delivered(s) && HalfCloseOrder(s) && EndOrder(s)
  }

  ghost predicate Inv(s: Link, ws: int, wr: int) {
    && Money(s, ws, wr)
    && (!s.overflowed ==> Order(s))
    && (s.overflowed ==> !s.registered)
  }

  // ---- wires ----

  lemma AppendToWire(wire: seq<Frame>, f: Frame)
    ensures Messages(wire + [f]) == Messages(wire) + (if f.Msg? then [f.payload] else [])
    ensures forall i :: 0 <= i <= |wire| ==> (wire + [f])[..i] == wire[..i]
  {
    MessagesConcat(wire, [f]);
    assert Messages([f]) == (if f.Msg? then [f.payload] else []) + Messages([f][1..]);
  }

  /** A frame leaves the head of the wire. */
  lemma DropHead(wire: seq<Frame>)
    requires wire != []
    ensures Messages(wire) == (if wire[0].Msg? then [wire[0].payload] else []) + Messages(wire[1..])
    ensures forall i :: 0 <= i < |wire| - 1 ==>
      |Messages(wire[..i + 1])| == (if wire[0].Msg? then 1 else 0) + |Messages(wire[1..][..i])|
  {
    forall i | 0 <= i < |wire| - 1
      ensures |Messages(wire[..i + 1])| == (if wire[0].Msg? then 1 else 0) + |Messages(wire[1..][..i])|
    {
      assert wire[1..][..i] == wire[..i + 1][1..];
    }
  }

  // ---- bytes: each step keeps Money, and moves bytes without losing any ----

  lemma ReserveFlight(s: Link, p: Payload)
    requires CanReserve(s)
    ensures var (a, b) := (InFlight(s), InFlight(DoReserve(s, p)));
            b == a + [p] && b[..|b| - 1] == a && TotalBytes(b) == TotalBytes(a) + |p|
  {
    assert InFlight(s) == Messages(s.wire);
    TotalBytesSnoc(InFlight(s), p);
  }

  lemma ReserveMoney(s: Link, p: Payload, ws: int, wr: int)
    requires Money(s, ws, wr) && CanReserve(s)
    ensures Money(DoReserve(s, p), ws, wr) && Ledger(DoReserve(s, p)) == Ledger(s)
  {
    ReserveFlight(s, p);
  }

  lemma WriteMoney(s: Link, ws: int, wr: int)
    requires Money(s, ws, wr) && CanWrite(s)
    ensures Money(DoWrite(s), ws, wr) && Ledger(DoWrite(s)) == Ledger(s)
  {
    AppendToWire(s.wire, Msg(s.snd.id, s.reserved.value));
    assert InFlight(DoWrite(s)) == InFlight(s);
  }

  lemma CloseMoney(s: Link, ws: int, wr: int)
    requires Money(s, ws, wr) && CanClose(s)
    ensures Money(DoClose(s), ws, wr) && Ledger(DoClose(s)) == Ledger(s)
  {
    AppendToWire(s.wire, HalfClose(s.snd.id));
    assert InFlight(DoClose(s)) == InFlight(s);
  }

  lemma EndMoney(s: Link, st: Status, ws: int, wr: int)
    requires Money(s, ws, wr) && CanEnd(s)
    ensures Money(DoEnd(s, st), ws, wr) && Ledger(DoEnd(s, st)) == Ledger(s)
  {
    AppendToWire(s.wire, End(s.snd.id, Some(st), None));
    assert InFlight(DoEnd(s, st)) == InFlight(s);
  }

  /** Routing a frame adds at most the payload of a MSG, and exactly it on a live stream. */
  lemma RoutedBytes(s: Link, f: Frame, wr: int)
    requires Counters(s, wr)
    ensures Counters(s.(rcv := Routed(s, f)), wr)
    ensures Routed(s, f).pendingCredit == s.rcv.pendingCredit
    ensures s.rcv.recvBytes <= Routed(s, f).recvBytes <= s.rcv.recvBytes + (if f.Msg? then |f.payload| else 0)
    ensures s.registered && !s.rcv.cancelled && !Resets(s, f) ==>
      Routed(s, f).recvBytes == s.rcv.recvBytes + (if f.Msg? then |f.payload| else 0)
  {
    if f.Msg? { TotalBytesSnoc(s.rcv.recvItems, f.payload); }
  }

  /** What is in flight loses the head of the wire. */
  lemma ArriveFlight(s: Link)
    requires s.wire != []
    ensures InFlight(s) == (if s.wire[0].Msg? then [s.wire[0].payload] else []) + InFlight(DoArrive(s))
    ensures s.wire[0].Msg? ==> TotalBytes(InFlight(s)) == |s.wire[0].payload| + TotalBytes(InFlight(DoArrive(s)))
    ensures s.wire[0].Msg? && InFlight(DoArrive(s)) != [] ==>
      TotalBytes(InFlight(s)[..|InFlight(s)| - 1])
      == |s.wire[0].payload| + TotalBytes(InFlight(DoArrive(s))[..|InFlight(DoArrive(s))| - 1])
  {
    DropHead(s.wire);
    var rest := InFlight(DoArrive(s));
    if s.wire[0].Msg? {
      var p := s.wire[0].payload;
      assert InFlight(s) == [p] + rest;
      if rest != [] {
        assert InFlight(s)[..|InFlight(s)| - 1][1..] == rest[..|rest| - 1];
      }
    }
  }

  lemma ArriveMoney(s: Link, ws: int, wr: int)
    requires Money(s, ws, wr) && s.wire != []
    ensures Money(DoArrive(s), ws, wr)
    ensures s.registered && !s.rcv.cancelled && !DoArrive(s).overflowed ==> Ledger(DoArrive(s)) == Ledger(s)
  {
    ArriveFlight(s);
    RoutedBytes(s, s.wire[0], wr);
    assert !s.wire[0].Msg? ==> InFlight(s) == InFlight(DoArrive(s));
  }

  lemma PopMoney(s: Link, ws: int, wr: int)
    requires Money(s, ws, wr) && CanPop(s)
    ensures Money(DoPop(s), ws, wr) && Ledger(DoPop(s)) == Ledger(s)
  {
  }

  /** The only place where credit can vanish is the uint32 conversion. */
  lemma AccountMoney(s: Link, ws: int, wr: int)
    requires Money(s, ws, wr) && s.pc.Popped?
    ensures Money(DoAccount(s), ws, wr)
    ensures var pending := s.rcv.pendingCredit + |s.pc.p|;
            Ledger(DoAccount(s)) == Ledger(s) <==> pending < UINT32_RANGE || pending < Threshold(wr)
  {
  }

  lemma UpdateMoney(s: Link, ws: int, wr: int)
    requires Money(s, ws, wr) && CanUpdate(s)
    ensures Money(DoUpdate(s), ws, wr) && Ledger(DoUpdate(s)) == Ledger(s)
  {
    SumSnoc(s.back, s.pc.delta);
    assert InFlight(DoUpdate(s)) == InFlight(s);
  }

  lemma CreditMoney(s: Link, ws: int, wr: int)
    requires Money(s, ws, wr) && s.back != []
    ensures Money(DoCredit(s), ws, wr) && Ledger(DoCredit(s)) == Ledger(s)
  {
  }

  lemma ReportMoney(s: Link, ws: int, wr: int)
    requires Money(s, ws, wr) && CanReportEnd(s)
    ensures Money(DoReportEnd(s), ws, wr) && Ledger(DoReportEnd(s)) == Ledger(s)
  {
  }

  // ---- order: each step keeps the payload sequence and the close marks ----

  lemma ReserveOrder(s: Link, p: Payload)
    requires Order(s) && CanReserve(s)
    ensures Order(DoReserve(s, p))
  {
  }

  lemma WriteOrder(s: Link)
    requires Order(s) && CanWrite(s)
    ensures Order(DoWrite(s))
  {
    AppendToWire(s.wire, Msg(s.snd.id, s.reserved.value));
    assert InFlight(DoWrite(s)) == InFlight(s);
  }

  lemma CloseOrder(s: Link)
    requires Order(s) && CanClose(s)
    ensures Order(DoClose(s))
  {
    AppendToWire(s.wire, HalfClose(s.snd.id));
    assert InFlight(DoClose(s)) == InFlight(s) == Messages(s.wire);
  }

  lemma EndingOrder(s: Link, st: Status)
    requires Order(s) && CanEnd(s)
    ensures Order(DoEnd(s, st))
  {
    AppendToWire(s.wire, End(s.snd.id, Some(st), None));
    assert InFlight(DoEnd(s, st)) == InFlight(s);
  }

  /** A live stream appends an arriving payload and leaves its backlog alone otherwise. */
  lemma ArriveBacklog(s: Link)
    requires EndOrder(s) && s.wire != [] && !Resets(s, s.wire[0])
    ensures DoArrive(s).rcv.recvItems
            == s.rcv.recvItems + (if s.wire[0].Msg? then [s.wire[0].payload] else [])
    ensures Arrived(DoArrive(s)) == Arrived(s) + (if s.wire[0].Msg? then 1 else 0)
    ensures DoArrive(s).rcv.halfClosed == (s.rcv.halfClosed || s.wire[0].HalfClose?)
  {
  }

  lemma ArriveHalfClose(s: Link)
    requires HalfCloseOrder(s) && EndOrder(s) && s.wire != [] && !Resets(s, s.wire[0])
    ensures HalfCloseOrder(DoArrive(s))
  {
    ArriveBacklog(s);
    DropHead(s.wire);
    var t := DoArrive(s);
    assert s.wire[..0] == [];
    forall i | 0 <= i < |t.wire| && t.wire[i].HalfClose?
      ensures t.closedAt == Some(Arrived(t) + |Messages(t.wire[..i])|)
    {
      assert t.wire[i] == s.wire[i + 1];
    }
  }

  lemma ArriveEnd(s: Link)
    requires EndOrder(s) && s.wire != [] && !Resets(s, s.wire[0])
    ensures EndOrder(DoArrive(s))
  {
  }

  lemma ArriveOrder(s: Link)
    requires Order(s) && s.wire != [] && !Resets(s, s.wire[0])
    ensures Order(DoArrive(s))
  {
    ArriveFlight(s);
    ArriveBacklog(s);
    ArriveHalfClose(s);
    ArriveEnd(s);
  }

  lemma PopOrder(s: Link)
    requires Order(s) && CanPop(s)
    ensures Order(DoPop(s))
  {
  }

  lemma AccountOrder(s: Link)
    requires Order(s) && s.pc.Popped?
    ensures Order(DoAccount(s))
  {
    assert InFlight(DoAccount(s)) == InFlight(s);
  }

  lemma UpdateOrder(s: Link)
    requires Order(s) && CanUpdate(s)
    ensures Order(DoUpdate(s))
  {
  }

  lemma CreditOrder(s: Link)
    requires Order(s) && s.back != []
    ensures Order(DoCredit(s))
  {
  }

  lemma ReportOrder(s: Link)
    requires Order(s) && CanReportEnd(s)
    ensures Order(DoReportEnd(s))
  {
  }

  // ---- the whole invariant, over whole runs ----

  /** No credit is lost to the uint32 conversion by this step. */
  ghost predicate NoLoss(s: Link, e: Event) {
    e.Account? && s.pc.Popped? ==>
      s.rcv.pendingCredit + |s.pc.p| < UINT32_RANGE || s.rcv.pendingCredit + |s.pc.p| < Threshold(s.rcv.initialWindow)
  }

  predicate SenderStep(e: Event) { e.Reserve? || e.WriteMsg? || e.CloseSend? || e.WriteEnd? || e.Credit? }

  lemma SenderKeepsMoney(s: Link, e: Event, ws: int, wr: int)
    requires Money(s, ws, wr) && SenderStep(e) && Step(s, e).Some?
    ensures Money(Step(s, e).value, ws, wr) && Ledger(Step(s, e).value) == Ledger(s)
  {
    match e
    case Reserve(p) => ReserveMoney(s, p, ws, wr);
    case WriteMsg => WriteMoney(s, ws, wr);
    case CloseSend => CloseMoney(s, ws, wr);
    case WriteEnd(st) => EndMoney(s, st, ws, wr);
    case Credit => CreditMoney(s, ws, wr);
  }

  lemma ReceiverKeepsMoney(s: Link, e: Event, ws: int, wr: int)
    requires Inv(s, ws, wr) && !SenderStep(e) && Step(s, e).Some?
    ensures Money(Step(s, e).value, ws, wr)
    ensures !Step(s, e).value.overflowed && NoLoss(s, e) ==> Ledger(Step(s, e).value) == Ledger(s)
  {
    match e
    case Arrive => ArriveMoney(s, ws, wr);
    case Pop => PopMoney(s, ws, wr);
    case Account => AccountMoney(s, ws, wr);
    case WriteUpdate => UpdateMoney(s, ws, wr);
    case ReportEof =>
    case ReportEnd => ReportMoney(s, ws, wr);
  }

  lemma StepKeepsOrder(s: Link, e: Event)
    requires Order(s) && Step(s, e).Some? && !(e.Arrive? && Resets(s, s.wire[0]))
    ensures Order(Step(s, e).value)
  {
    match e
    case Reserve(p) => ReserveOrder(s, p);
    case WriteMsg => WriteOrder(s);
    case CloseSend => CloseOrder(s);
    case WriteEnd(st) => EndingOrder(s, st);
    case Arrive => ArriveOrder(s);
    case Pop => PopOrder(s);
    case Account => AccountOrder(s);
    case WriteUpdate => UpdateOrder(s);
    case Credit => CreditOrder(s);
    case ReportEof =>
    case ReportEnd => ReportOrder(s);
  }

  /** Only an arrival can reset the stream, and a reset stream is off the registry. */
  lemma StepResets(s: Link, e: Event)
    requires (s.overflowed ==> !s.registered) && Step(s, e).Some?
    ensures var t := Step(s, e).value;
            && t.overflowed == (s.overflowed || (e.Arrive? && Resets(s, s.wire[0])))
            && (t.overflowed ==> !t.registered)
  {
  }

  lemma StepKeepsInv(s: Link, e: Event, ws: int, wr: int)
    requires Inv(s, ws, wr) && Step(s, e).Some?
    ensures Inv(Step(s, e).value, ws, wr)
    ensures !Step(s, e).value.overflowed && NoLoss(s, e) ==> Ledger(Step(s, e).value) == Ledger(s)
    ensures Step(s, e).value.overflowed == (s.overflowed || (e.Arrive? && Resets(s, s.wire[0])))
  {
    if SenderStep(e) { SenderKeepsMoney(s, e, ws, wr); } else { ReceiverKeepsMoney(s, e, ws, wr); }
    StepResets(s, e);
    if !Step(s, e).value.overflowed { StepKeepsOrder(s, e); }
  }

  lemma InitInv(ws: int, wr: int)
    requires ws > 0 && wr > 0
    ensures Inv(Init(ws, wr), ws, wr) && Ledger(Init(ws, wr)) == ws
  {
  }

  lemma {:induction false} RunKeepsInv(s: Link, es: seq<Event>, ws: int, wr: int)
    requires Inv(s, ws, wr) && Run(s, es).Some?
    ensures Inv(Run(s, es).value, ws, wr)
    ensures s.overflowed ==> Run(s, es).value.overflowed
    decreases |es|
  {
    if es != [] {
      StepKeepsInv(s, es[0], ws, wr);
      RunKeepsInv(Step(s, es[0]).value, es[1..], ws, wr);
    }
  }

  /** The state after a run from the initial state. */
  ghost predicate Reaches(ws: int, wr: int, es: seq<Event>, s: Link) {
    ws > 0 && wr > 0 && Run(Init(ws, wr), es) == Some(s)
  }

  lemma ReachedInv(ws: int, wr: int, es: seq<Event>, s: Link)
    requires Reaches(ws, wr, es, s)
    ensures Inv(s, ws, wr)
  {
    InitInv(ws, wr);
    RunKeepsInv(Init(ws, wr), es, ws, wr);
  }

  // ---- delivery ----

  /** Nothing is lost, duplicated or reordered; the close marks are honest. A run
      without a reset is any run at all when ws <= wr + 1. */
  lemma DeliveryInOrder(ws: int, wr: int, es: seq<Event>, s: Link)
    requires Reaches(ws, wr, es, s) && (ws <= wr + 1 || !s.overflowed)
    ensures s.got <= s.sent
    ensures CanReportEof(s) ==>
      && s.closedAt.Some? && s.closedAt.value <= |s.sent|
      && s.sent[..s.closedAt.value] <= s.got
      && (s.closedAt.value == |s.sent| ==> s.got == s.sent)
    ensures CanReportEnd(s) ==> s.got == s.sent && RecvEndedResult(s.rcv) == StatusOutcome(s.snd.endSt)
  {
    ReachedInv(ws, wr, es, s);
    if ws <= wr + 1 {
      NeverReset(Init(ws, wr), es, ws, wr) by { InitInv(ws, wr); }
    }
  }

  // ---- false resets ----

  /** A window-obeying sender cannot trip the overflow check when ws <= wr + 1. */
  lemma WindowForbidsReset(s: Link, ws: int, wr: int)
    requires Inv(s, ws, wr) && ws <= wr + 1 && s.wire != []
    ensures !Resets(s, s.wire[0])
  {
  }

  lemma {:induction false} NeverReset(s: Link, es: seq<Event>, ws: int, wr: int)
    requires Inv(s, ws, wr) && ws <= wr + 1 && !s.overflowed && Run(s, es).Some?
    ensures !Run(s, es).value.overflowed
    decreases |es|
  {
    if es != [] {
      if es[0].Arrive? { WindowForbidsReset(s, ws, wr); }
      StepKeepsInv(s, es[0], ws, wr);
      NeverReset(Step(s, es[0]).value, es[1..], ws, wr);
    }
  }

  /** No payload handed to SendRaw is longer than m. */
  predicate Within(es: seq<Event>, m: nat) {
    forall i :: 0 <= i < |es| && es[i].Reserve? ==> |es[i].p| <= m
  }

  const ONE_BYTE: Payload := [0]

  function Ones(k: nat): seq<Payload> { seq(k, _ => ONE_BYTE) }

  /** k one-byte messages have arrived and none was received. */
  function Filled(ws: int, wr: int, k: nat): Link
    requires ws > 0 && wr > 0
  {
    var s := Init(ws, wr);
    s.(snd := s.snd.(sendWindow := ws - k), rcv := s.rcv.(recvItems := Ones(k), recvBytes := k), sent := Ones(k))
  }

  const SEND_ONE := [Reserve(ONE_BYTE), WriteMsg, Arrive]

  lemma SendOne(s: Link)
    requires CanReserve(s) && s.wire == []
    ensures Step(s, SEND_ONE[0]).Some?
    ensures Run(s, SEND_ONE) == Some(DoArrive(DoWrite(DoReserve(s, ONE_BYTE))))
  {
    var a := DoReserve(s, ONE_BYTE);
    var b := DoWrite(a);
    assert Run(b, [Arrive]) == Run(DoArrive(b), [Arrive][1..]);
    assert [WriteMsg, Arrive][1..] == [Arrive];
    assert Run(a, [WriteMsg, Arrive]) == Run(b, [Arrive]);
    assert SEND_ONE[1..] == [WriteMsg, Arrive];
  }

  lemma {:induction false} FillBacklog(ws: int, wr: int, k: nat) returns (es: seq<Event>)
    requires wr > 0 && 0 < ws && k <= ws && k <= wr + 1
    ensures Run(Init(ws, wr), es) == Some(Filled(ws, wr, k)) && Within(es, 1)
  {
    if k == 0 {
      es := [];
      assert Filled(ws, wr, 0) == Init(ws, wr);
    } else {
      var before := FillBacklog(ws, wr, k - 1);
      var s := Filled(ws, wr, k - 1);
      SendOne(s);
      RunConcat(Init(ws, wr), before, SEND_ONE);
      es := before + SEND_ONE;
      assert Ones(k - 1) + [ONE_BYTE] == Ones(k);
      assert DoArrive(DoWrite(DoReserve(s, ONE_BYTE))) == Filled(ws, wr, k);
    }
  }

  /** The sharp bound: some run of window-obeying sends is reset exactly when the
      sender's window exceeds the receiver's by two or more. */
  lemma FalseResetIff(ws: int, wr: int, m: nat)
    requires ws > 0 && wr > 0 && m > 0
    ensures (exists es, s :: Within(es, m) && Reaches(ws, wr, es, s) && s.overflowed) <==> ws >= wr + 2
  {
    if ws >= wr + 2 {
      var fill := FillBacklog(ws, wr, wr + 1);
      var s := Filled(ws, wr, wr + 1);
      SendOne(s);
      RunConcat(Init(ws, wr), fill, SEND_ONE);
      var t := DoArrive(DoWrite(DoReserve(s, ONE_BYTE)));
      assert Within(fill + SEND_ONE, m) && Reaches(ws, wr, fill + SEND_ONE, t) && t.overflowed;
    } else {
      InitInv(ws, wr);
      forall es, s | Reaches(ws, wr, es, s) ensures !s.overflowed {
        NeverReset(Init(ws, wr), es, ws, wr);
      }
    }
  }

  // ---- conservation ----

  /** With payloads up to m, the receiver coalesces at most one payload on top of
      what is below both its threshold and the sender's window. Either that
      fits uint32, or it never reaches the threshold and is never sent. */
  predicate NoWrap(ws: int, wr: int, m: nat) {
    || (if ws < Threshold(wr) then ws else Threshold(wr)) - 1 + m < UINT32_RANGE
    || ws - 1 + m < Threshold(wr)
  }

  ghost predicate Small(s: Link, m: nat) {
    && (forall p :: p in s.sent ==> |p| <= m)
    && s.snd.sendWindow >= 1 - m
  }

  lemma StepKeepsSmall(s: Link, e: Event, m: nat)
    requires Small(s, m) && Step(s, e).Some? && (e.Reserve? ==> |e.p| <= m)
    ensures Small(Step(s, e).value, m)
  {
  }

  /** Small payloads keep the announced total inside uint32. */
  lemma SmallMeansNoLoss(s: Link, e: Event, ws: int, wr: int, m: nat)
    requires Inv(s, ws, wr) && !s.overflowed && Small(s, m) && NoWrap(ws, wr, m)
    ensures NoLoss(s, e)
  {
  }

  lemma {:induction false} LedgerKept(s: Link, es: seq<Event>, t: Link, ws: int, wr: int, m: nat)
    requires Inv(s, ws, wr) && Small(s, m) && Within(es, m) && NoWrap(ws, wr, m)
    requires Run(s, es) == Some(t) && !t.overflowed
    ensures Ledger(t) == Ledger(s) && !s.overflowed
    decreases |es|
  {
    if es != [] {
      StepKeepsInv(s, es[0], ws, wr);
      StepKeepsSmall(s, es[0], m);
      LedgerKept(Step(s, es[0]).value, es[1..], t, ws, wr, m);
      SmallMeansNoLoss(s, es[0], ws, wr, m);
    }
  }

  /** Every byte of the initial window is always accounted for. */
  lemma Conservation(ws: int, wr: int, es: seq<Event>, s: Link, m: nat)
    requires Reaches(ws, wr, es, s) && !s.overflowed
    requires Within(es, m) && NoWrap(ws, wr, m)
    ensures s.snd.sendWindow
            + (if s.reserved.Some? then |s.reserved.value| else 0) + TotalBytes(Messages(s.wire))
            + TotalBytes(s.rcv.recvItems)
            + PcBytes(s.pc) + s.rcv.pendingCredit + Sum(s.back) == ws
  {
    InitInv(ws, wr);
    ReachedInv(ws, wr, es, s);
    LedgerKept(Init(ws, wr), es, s, ws, wr, m);
    if s.reserved.Some? {
      TotalBytesSnoc(Messages(s.wire), s.reserved.value);
    } else {
      assert InFlight(s) == Messages(s.wire);
    }
  }

  // ---- progress ----

  /** Steps that neither start a send nor close: the system working off what it has. */
  predicate Internal(e: Event) {
    e.WriteMsg? || e.Arrive? || e.Pop? || e.Account? || e.WriteUpdate? || e.Credit?
  }

  ghost predicate Quiet(s: Link) {
    forall e :: Internal(e) ==> Step(s, e).None?
  }

  /** Each stage a message still has to pass costs one. */
  function Work(s: Link): nat {
    (if s.reserved.Some? then 6 else 0) + 5 * |s.wire| + 4 * |s.rcv.recvItems|
    + (match s.pc case Idle => 0 case Popped(_) => 3 case Crediting(_, _) => 2)
    + |s.back|
  }

  lemma InternalDecreases(s: Link, e: Event)
    requires Internal(e) && Step(s, e).Some?
    ensures Work(Step(s, e).value) < Work(s)
  {
    match e
    case WriteMsg =>
    case Arrive => ArriveWorks(s);
    case Pop =>
    case Account =>
    case WriteUpdate =>
    case Credit =>
  }

  lemma ArriveWorks(s: Link)
    requires s.wire != []
    ensures Work(DoArrive(s)) < Work(s)
  {
    assert |Routed(s, s.wire[0]).recvItems| <= |s.rcv.recvItems| + 1;
  }

  lemma {:induction false} InternalRunsEnd(s: Link, es: seq<Event>)
    requires Run(s, es).Some? && forall i :: 0 <= i < |es| ==> Internal(es[i])
    ensures |es| + Work(Run(s, es).value) <= Work(s)
    decreases |es|
  {
    if es != [] {
      InternalDecreases(s, es[0]);
      InternalRunsEnd(Step(s, es[0]).value, es[1..]);
    }
  }

  lemma QuietMeans(s: Link)
    requires Quiet(s)
    ensures s.wire == [] && s.back == [] && s.reserved.None? && s.pc.Idle? && s.rcv.recvItems == []
  {
    assert Step(s, Arrive).None? && Step(s, Credit).None?;
    assert Step(s, WriteMsg).None? && Step(s, Account).None? && Step(s, WriteUpdate).None?;
    assert Step(s, Pop).None?;
  }

  /** When everything has been worked off, all but the coalesced remainder is back. */
  lemma QuietWindow(ws: int, wr: int, es: seq<Event>, s: Link, m: nat)
    requires Reaches(ws, wr, es, s) && !s.overflowed && Quiet(s)
    requires Within(es, m) && NoWrap(ws, wr, m)
    ensures s.snd.sendWindow > ws - Threshold(wr)
  {
    QuietMeans(s);
    Conservation(ws, wr, es, s, m);
    ReachedInv(ws, wr, es, s);
  }

  /** A blocked sender with window at least the threshold: some internal step is
      enabled, every internal schedule is finite, and where it stops the
      sender may go on. */
  lemma BlockedSendResumes(ws: int, wr: int, es: seq<Event>, s: Link, m: nat, rest: seq<Event>, t: Link)
    requires Reaches(ws, wr, es, s) && Within(es, m) && NoWrap(ws, wr, m)
    requires ws >= Threshold(wr)
    requires (forall i :: 0 <= i < |rest| ==> Internal(rest[i])) && Run(s, rest) == Some(t) && !t.overflowed
    ensures |rest| <= Work(s)
    ensures t.snd.sendWindow <= 0 ==> exists e :: Internal(e) && Step(t, e).Some?
  {
    InternalRunsEnd(s, rest);
    RunConcat(Init(ws, wr), es, rest);
    if Quiet(t) {
      assert Within(es + rest, m);
      QuietWindow(ws, wr, es + rest, t, m);
    }
  }

  /** A send is blocked and nothing the system still holds can change that. */
  ghost predicate Stalled(s: Link) {
    !s.overflowed && !s.finished && s.snd.sendWindow <= 0 && Quiet(s)
  }

  /** No message and no credit anywhere, and no window to start one. */
  ghost predicate Dry(s: Link) {
    && Messages(s.wire) == [] && s.reserved.None? && s.rcv.recvItems == [] && s.pc.Idle? && s.back == []
    && s.snd.sendWindow <= 0
  }

  /** A stall is permanent: whatever happens next, no payload is ever accepted again. */
  lemma {:induction false} DryForever(s: Link, es: seq<Event>)
    requires Dry(s) && Run(s, es).Some?
    ensures Dry(Run(s, es).value) && Run(s, es).value.sent == s.sent
    decreases |es|
  {
    if es != [] {
      StepKeepsDry(s, es[0]);
      DryForever(Step(s, es[0]).value, es[1..]);
    }
  }

  lemma StepKeepsDry(s: Link, e: Event)
    requires Dry(s) && Step(s, e).Some?
    ensures Dry(Step(s, e).value) && Step(s, e).value.sent == s.sent
  {
    match e
    case CloseSend => AppendToWire(s.wire, HalfClose(s.snd.id));
    case WriteEnd(st) => AppendToWire(s.wire, End(s.snd.id, Some(st), None));
    case Arrive => DropHead(s.wire);
    case ReportEof =>
    case ReportEnd =>
  }

  lemma StalledForever(s: Link, es: seq<Event>)
    requires Stalled(s) && Run(s, es).Some?
    ensures Run(s, es).value.snd.sendWindow <= 0 && Run(s, es).value.sent == s.sent
  {
    QuietMeans(s);
    DryForever(s, es);
  }

  // ---- round trips through a resting link ----

  /** Nothing is under way and the stream is open. */
  ghost predicate Resting(s: Link, wr: int) {
    && s.reserved.None? && !s.finished && s.wire == [] && s.registered && !s.overflowed
    && s.pc.Idle? && s.back == [] && s.rcv.recvItems == [] && s.rcv.recvBytes == 0
    && !s.rcv.cancelled && s.rcv.initialWindow == wr && 0 <= s.rcv.pendingCredit < Threshold(wr)
  }

  /** One message was sent and received, and its credit, if any, came back. */
  function Tripped(s: Link, p: Payload): Link {
    s.(snd := s.snd.(sendWindow := s.snd.sendWindow - |p| + CreditDelta(s.rcv, |p|)),
       rcv := AccountCredit(s.rcv, |p|),
       sent := s.sent + [p],
       got := s.got + [p])
  }

  /** The message is received and not yet accounted. */
  function InHand(s: Link, p: Payload): Link {
    s.(snd := GoStream.Reserve(s.snd, |p|), pc := Popped(p), sent := s.sent + [p])
  }

  /** Carry one message to a receive, and go on with the rest. */
  function Inward(p: Payload, rest: seq<Event>): seq<Event> {
    [Reserve(p)] + ([WriteMsg] + ([Arrive] + ([Pop] + rest)))
  }

  lemma InwardWithin(p: Payload, rest: seq<Event>)
    requires Within(rest, 0)
    ensures Within(Inward(p, rest), |p|)
  {
  }

  lemma TripArrives(s: Link, p: Payload, wr: int, rest: seq<Event>)
    requires Resting(s, wr) && s.snd.sendWindow > 0
    ensures Run(s, Inward(p, rest)) == Run(InHand(s, p), rest)
  {
    var a := DoReserve(s, p);
    var b := DoWrite(a);
    var c := DoArrive(b);
    assert c.rcv.recvItems == [p] && c.wire == s.wire;
    assert DoPop(c).rcv == s.rcv;
    RunCons(c, Pop, InHand(s, p), rest);
    RunCons(b, Arrive, c, [Pop] + rest);
    RunCons(a, WriteMsg, b, [Arrive] + ([Pop] + rest));
    RunCons(s, Reserve(p), a, [WriteMsg] + ([Arrive] + ([Pop] + rest)));
  }

  lemma TripAccounts(s: Link, p: Payload, wr: int) returns (es: seq<Event>)
    requires Resting(s, wr) && s.snd.sendWindow > 0
    ensures Run(InHand(s, p), es) == Some(Tripped(s, p)) && Within(es, 0)
  {
    var a := InHand(s, p);
    var b := DoAccount(a);
    if CreditDelta(s.rcv, |p|) == 0 {
      RunCons(a, Account, b, []);
      es := [Account] + [];
    } else {
      var c := DoUpdate(b);
      assert c.back == [CreditDelta(s.rcv, |p|)] && DoCredit(c).back == s.back;
      RunCons(c, Credit, Tripped(s, p), []);
      RunCons(b, WriteUpdate, c, [Credit] + []);
      RunCons(a, Account, b, [WriteUpdate] + ([Credit] + []));
      es := [Account] + ([WriteUpdate] + ([Credit] + []));
    }
  }

  lemma Trip(s: Link, p: Payload, wr: int) returns (es: seq<Event>)
    requires Resting(s, wr) && s.snd.sendWindow > 0
    ensures Run(s, es) == Some(Tripped(s, p)) && Resting(Tripped(s, p), wr) && Within(es, |p|)
  {
    var rest := TripAccounts(s, p, wr);
    TripArrives(s, p, wr, rest);
    InwardWithin(p, rest);
    es := Inward(p, rest);
  }

  /** Sends and receives k single bytes, too few to bring credit back. */
  lemma {:induction false} Drip(s: Link, wr: int, k: nat) returns (es: seq<Event>, t: Link)
    requires Resting(s, wr) && k <= s.snd.sendWindow && s.rcv.pendingCredit + k < Threshold(wr)
    ensures Run(s, es) == Some(t) && Resting(t, wr) && Within(es, 1)
    ensures t.snd.sendWindow == s.snd.sendWindow - k && t.rcv.pendingCredit == s.rcv.pendingCredit + k
    decreases k
  {
    if k == 0 {
      es, t := [], s;
    } else {
      var one := Trip(s, ONE_BYTE, wr);
      var rest;
      rest, t := Drip(Tripped(s, ONE_BYTE), wr, k - 1);
      RunConcat(s, one, rest);
      es := one + rest;
    }
  }

  /** k single bytes, then one payload that makes the coalesced total wrap: the window
      falls by 2^32 or more. */
  lemma WrappingRound(s: Link, wr: int, k: nat, m: nat) returns (es: seq<Event>, t: Link)
    requires Resting(s, wr) && s.rcv.pendingCredit == 0 && k < s.snd.sendWindow && k < Threshold(wr) && m > 0
    requires k + m >= UINT32_RANGE && k + m >= Threshold(wr)
    ensures Run(s, es) == Some(t) && Resting(t, wr) && Within(es, m)
    ensures t.rcv.pendingCredit == 0 && t.snd.sendWindow <= s.snd.sendWindow - UINT32_RANGE
  {
    var big: Payload := seq(m, _ => 0);
    var drip, u := Drip(s, wr, k);
    var last := Trip(u, big, wr);
    RunConcat(s, drip, last);
    es, t := drip + last, Tripped(u, big);
  }

  lemma RestingStalls(s: Link, wr: int)
    requires Resting(s, wr) && s.snd.sendWindow <= 0
    ensures Stalled(s)
  {
  }

  /** A resting link whose window is below the threshold, or whose coalesced credit can
      wrap, can be driven into a stall. */
  lemma {:induction false} StallFrom(s: Link, wr: int, m: nat) returns (es: seq<Event>, t: Link)
    requires Resting(s, wr) && s.rcv.pendingCredit == 0 && m > 0
    requires s.snd.sendWindow < Threshold(wr) || Threshold(wr) - 1 + m >= UINT32_RANGE
    ensures Run(s, es) == Some(t) && Within(es, m) && Stalled(t)
    decreases if s.snd.sendWindow > 0 then s.snd.sendWindow else 0
  {
    if s.snd.sendWindow <= 0 {
      es, t := [], s;
      RestingStalls(t, wr);
    } else if s.snd.sendWindow < Threshold(wr) {
      es, t := Drip(s, wr, s.snd.sendWindow);
      RestingStalls(t, wr);
    } else {
      var round, u := WrappingRound(s, wr, Threshold(wr) - 1, m);
      var rest;
      rest, t := StallFrom(u, wr, m);
      RunConcat(s, round, rest);
      es := round + rest;
    }
  }

  /** The sharp bound, for all windows and payload sizes: a permanent stall is reachable
      exactly when the sender's window is below the receiver's flush threshold,
      or a coalesced delta can wrap. */
  lemma StallIff(ws: int, wr: int, m: nat)
    requires ws > 0 && wr > 0 && m > 0
    ensures (exists es, s :: Within(es, m) && Reaches(ws, wr, es, s) && Stalled(s))
            <==> ws < Threshold(wr) || !NoWrap(ws, wr, m)
  {
    if ws < Threshold(wr) || !NoWrap(ws, wr, m) {
      var es, s := StallFrom(Init(ws, wr), wr, m);
      assert Within(es, m) && Reaches(ws, wr, es, s) && Stalled(s);
    } else {
      forall es, s | Within(es, m) && Reaches(ws, wr, es, s) ensures !Stalled(s) {
        if Stalled(s) { QuietWindow(ws, wr, es, s, m); }
      }
    }
  }

  /** Conservation holds of every run with payloads up to m exactly when the
      largest coalesced delta fits uint32. */
  lemma ConservationIff(ws: int, wr: int, m: nat)
    requires ws > 0 && wr > 0 && m > 0
    ensures (forall es, s :: Within(es, m) && Reaches(ws, wr, es, s) && !s.overflowed ==> Ledger(s) == ws)
            <==> NoWrap(ws, wr, m)
  {
    if NoWrap(ws, wr, m) {
      InitInv(ws, wr);
      forall es, s | Within(es, m) && Reaches(ws, wr, es, s) && !s.overflowed ensures Ledger(s) == ws {
        LedgerKept(Init(ws, wr), es, s, ws, wr, m);
      }
    } else {
      var k := (if ws < Threshold(wr) then ws else Threshold(wr)) - 1;
      var es, s := WrappingRound(Init(ws, wr), wr, k, m);
      assert Ledger(s) == s.snd.sendWindow by { assert InFlight(s) == []; }
      assert Within(es, m) && Reaches(ws, wr, es, s) && !s.overflowed && Ledger(s) != ws;
    }
  }
}
