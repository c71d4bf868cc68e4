/** One client stream of the TypeScript runtime (stream.ts), as a value: what
    each method does to the stream itself. The frames its hooks write go
    through TsMux. */
module TsStream {
  import opened Frames
  import opened Queues

  const DEFAULT_INITIAL_WINDOW := 256 * 1024
  const DEFAULT_MAX_SEND_BUFFER := 16 * 1024 * 1024

  /** A limit that is not positive means its default. */
  function LimitOr(limit: int, default_: int): int { if limit > 0 then limit else default_ }

  /** Send side: the pump's queue, and what was accepted and handed on so far. */
  datatype Out = Out(window: int, queue: seq<Payload>, bytes: int, accepted: seq<Payload>, handed: seq<Payload>)

  /** Receive side. `continuing` are the payloads given to a pull whose
      continuation after `await` has not run yet. */
  datatype In = In(queue: Queue<Payload>, continuing: seq<Payload>, buffered: int, pending: nat)

  /** How the stream finishes. The call counters count invocations of the
      promise resolvers, of terminal transitions and of the reset hook. */
  datatype Fate = Fate(
    sendClosed: bool,
    finished: bool,
    terminals: nat,
    resets: nat,
    trailers: Option<Headers>, trailerCalls: nat,
    leading: Option<Headers>, leadingCalls: nat,
    hooked: nat, waiting: seq<nat>, ran: seq<nat>)   // onClose callbacks, by registration

  datatype Strm = Strm(out: Out, inn: In, fate: Fate)

  function New(window: int): Strm {
    Strm(Out(window, [], 0, [], []), In(Empty(), [], 0, 0), Fate(false, false, 0, 0, None, 0, None, 0, 0, [], []))
  }

  // ---- send side ----

  function Accept(o: Out, p: Payload): Out {
    o.(queue := o.queue + [p], bytes := o.bytes + |p|, accepted := o.accepted + [p])
  }

  predicate CanPump(s: Strm) { s.out.queue != [] && s.out.window > 0 && !s.fate.finished }

  /** One turn of the pump, up to the sendMsg hook. */
  function Shift(o: Out): Out
    requires o.queue != []
  {
    var p := o.queue[0];
    o.(queue := o.queue[1..], bytes := o.bytes - |p|, window := o.window - |p|, handed := o.handed + [p])
  }

  function Grant(o: Out, delta: int): Out { o.(window := if delta <= 0 then o.window else o.window + delta) }

  ghost predicate OutOk(o: Out, cap: int, m: nat) {
    && o.handed + o.queue == o.accepted
    && o.bytes == TotalBytes(o.queue)
    && o.bytes <= cap + m
  }

  lemma AcceptKeepsOut(o: Out, p: Payload, cap: int, m: nat)
    requires OutOk(o, cap, m) && o.bytes <= cap && |p| <= m
    ensures OutOk(Accept(o, p), cap, m)
  {
    TotalBytesSnoc(o.queue, p);
    assert o.handed + (o.queue + [p]) == o.accepted + [p];
  }

  lemma ShiftKeepsOut(o: Out, cap: int, m: nat)
    requires OutOk(o, cap, m) && o.queue != []
    ensures OutOk(Shift(o), cap, m)
  {
  }

  // ---- receive side ----

  /** pushMsg: a waiting pull takes the payload straight away. */
  function Arrive(i: In, p: Payload): In {
    i.(queue := Pushed(i.queue, p),
       continuing := if !Terminated(i.queue) && i.queue.waiters != [] then i.continuing + [p] else i.continuing,
       buffered := i.buffered + |p|)
  }

  /** recv up to its await. */
  function Request(i: In): In {
    i.(queue := Pulled(i.queue),
       continuing := if i.queue.values != [] then i.continuing + [i.queue.values[0]] else i.continuing)
  }

  predicate Flushes(i: In, n: nat, window: int) { n > 0 && i.pending + n >= Threshold(window) }

  /** recv after its await, without the hook: a finished stream returns no credit. */
  function Resume(i: In, finished: bool, window: int): In
    requires i.continuing != []
  {
    var n := |i.continuing[0]|;
    i.(continuing := i.continuing[1..],
       buffered := i.buffered - n,
       pending := if finished then i.pending else if Flushes(i, n, window) then 0 else i.pending + n)
  }

  ghost predicate InOk(i: In, window: int, m: nat) {
    && i.buffered == TotalBytes(i.queue.values) + TotalBytes(i.continuing)
    && i.buffered <= window + m
    && i.pending < Threshold(window)
    && (i.queue.values == [] || i.queue.waiters == [])
  }

  lemma ArriveKeepsIn(i: In, p: Payload, window: int, m: nat)
    requires InOk(i, window, m) && !Terminated(i.queue) && i.buffered <= window && |p| <= m
    ensures InOk(Arrive(i, p), window, m)
  {
    TotalBytesSnoc(i.queue.values, p);
    TotalBytesSnoc(i.continuing, p);
  }

  lemma RequestKeepsIn(i: In, window: int, m: nat)
    requires InOk(i, window, m)
    ensures InOk(Request(i), window, m)
  {
    if i.queue.values != [] { TotalBytesSnoc(i.continuing, i.queue.values[0]); }
  }

  lemma ResumeKeepsIn(i: In, finished: bool, window: int, m: nat)
    requires InOk(i, window, m) && i.continuing != []
    ensures InOk(Resume(i, finished, window), window, m)
  {
  }

  // ---- termination ----

  function ResolveLeading(f: Fate, h: Headers): Fate {
    f.(leading := if f.leading.Some? then f.leading else Some(h),
       leadingCalls := if f.leading.Some? then f.leadingCalls else f.leadingCalls + 1)
  }

  function ResolveTrailers(f: Fate, h: Headers): Fate {
    var g := ResolveLeading(f, map[]);
    g.(trailers := if g.trailers.Some? then g.trailers else Some(h),
       trailerCalls := if g.trailers.Some? then g.trailerCalls else g.trailerCalls + 1)
  }

  function RunClose(f: Fate): Fate { f.(waiting := [], ran := f.ran + f.waiting) }

  /** The common tail of every terminal path. */
  function Settle(f: Fate, h: Headers): Fate {
    RunClose(ResolveTrailers(f.(finished := true, terminals := f.terminals + 1), h))
  }

  function OnClose(f: Fate): Fate {
    f.(hooked := f.hooked + 1,
       waiting := if f.finished then f.waiting else f.waiting + [f.hooked],
       ran := if f.finished then f.ran + [f.hooked] else f.ran)
  }

  function EndOk(s: Strm, h: Headers): Strm {
    s.(fate := if s.fate.finished then s.fate else Settle(s.fate, h),
       inn := s.inn.(queue := if s.fate.finished then s.inn.queue else Finished(s.inn.queue)))
  }

  function EndError(s: Strm, why: Status, h: Headers): Strm {
    s.(fate := if s.fate.finished then s.fate else Settle(s.fate, h),
       inn := s.inn.(queue := if s.fate.finished then s.inn.queue else FailedWith(s.inn.queue, Some(why))))
  }

  /** cancel and abort before the reset hook runs. */
  function MarkReset(f: Fate): Fate {
    f.(finished := true, sendClosed := true, terminals := f.terminals + 1, resets := f.resets + 1)
  }

  /** ... and after it. */
  function SettleReset(f: Fate): Fate { RunClose(ResolveTrailers(f, map[])) }

  /** One terminal at most, and each consequence of it exactly once. */
  ghost predicate FateOk(f: Fate) {
    && f.terminals == f.trailerCalls == (if f.finished then 1 else 0)
    && (f.trailers.Some? <==> f.finished)
    && f.leadingCalls == (if f.leading.Some? then 1 else 0)
    && (f.finished ==> f.leading.Some? && f.waiting == [])
    && f.resets <= f.terminals
    && f.ran + f.waiting == Tickets(0, f.hooked)
  }

  /** The queue got exactly one of end and fail, and only from the terminal. */
  ghost predicate QueueOk(q: Queue<Payload>, finished: bool) {
    if finished then q.ended != q.error.Some? else !Terminated(q)
  }

  ghost predicate StrmOk(s: Strm, window: int, cap: int, m: nat) {
    OutOk(s.out, cap, m) && InOk(s.inn, window, m) && FateOk(s.fate) && QueueOk(s.inn.queue, s.fate.finished)
  }

  /** Work conservation: the pump never stops early. */
  predicate Pumped(s: Strm) { !CanPump(s) }

  lemma ResetKeepsFate(f: Fate)
    requires FateOk(f) && !f.finished
    ensures FateOk(SettleReset(MarkReset(f)))
  {
  }

  lemma OnCloseKeepsFate(f: Fate)
    requires FateOk(f)
    ensures FateOk(OnClose(f))
  {
    assert Tickets(0, f.hooked + 1) == Tickets(0, f.hooked) + [f.hooked];
    assert f.ran + f.waiting + [f.hooked] == f.ran + (f.waiting + [f.hooked]);
  }

  lemma LeadingKeepsFate(f: Fate, h: Headers)
    requires FateOk(f)
    ensures FateOk(ResolveLeading(f, h))
  {
  }

  /** Terminating the queue leaves its buffered values alone. */
  lemma TerminalKeepsIn(i: In, why: Status, window: int, m: nat)
    requires InOk(i, window, m)
    ensures InOk(i.(queue := Finished(i.queue)), window, m)
    ensures InOk(i.(queue := FailedWith(i.queue, Some(why))), window, m)
  {
  }

  lemma EndOkKeeps(s: Strm, h: Headers, window: int, cap: int, m: nat)
    requires StrmOk(s, window, cap, m)
    ensures StrmOk(EndOk(s, h), window, cap, m) && EndOk(s, h).fate.finished
  {
  }

  lemma EndErrorKeeps(s: Strm, why: Status, h: Headers, window: int, cap: int, m: nat)
    requires StrmOk(s, window, cap, m)
    ensures StrmOk(EndError(s, why, h), window, cap, m) && EndError(s, why, h).fate.finished
  {
  }
}
