/** The connection supervisor of the TypeScript transport (transport.ts): six
    phases, three timers, an attempt counter, and pause/resume/retry/close.
    Sockets are represented by the state of their mux, in order of creation;
    the last one is `this.mux`. State listeners do not call back. */
module Supervisor {
  import opened Frames
  import opened Backoff

  datatype Phase = Paused | Waiting | Connecting | Connected | Disconnected | Closed

  /** A mux whose socket is not open yet, is open, or is gone for good. */
  datatype MuxSt = Unopened | Live | Gone

  /** What the run has logged about the backoff schedule. */
  datatype Item = Reset | Redial(delay: int)

  datatype Options = Options(
    owned: bool,          // the transport dials (url set); false for fromSocket
    reconnect: bool,
    stableMs: bool,       // backoff.stableMs > 0
    dialTimeout: bool,    // dialTimeoutMs > 0
    initial: real,
    max: real)

  datatype Sup = Sup(
    phase: Phase,
    attempt: nat,
    paused: bool,
    closed: bool,
    retryTimer: bool,
    dialTimer: Option<nat>,   // the mux its callback captured
    stableTimer: bool,
    muxes: seq<MuxSt>,
    log: seq<Item>)

  predicate Has(s: Sup, i: nat) { i < |s.muxes| }

  predicate Current(s: Sup, i: nat) { i == |s.muxes| - 1 }

  function SetMux(s: Sup, i: nat, m: MuxSt): Sup
    requires Has(s, i)
  {
    s.(muxes := s.muxes[i := m])
  }

  /** this.mux?.close(): gone, and its owner is not notified. */
  function CloseMux(s: Sup): Sup {
    s.(muxes := if s.muxes == [] then [] else s.muxes[|s.muxes| - 1 := Gone])
  }

  function OnOpen(o: Options, s: Sup): Sup {
    s.(dialTimer := None,
       attempt := if o.stableMs then s.attempt else 0,
       log := if o.stableMs then s.log else s.log + [Reset],
       stableTimer := o.stableMs || s.stableTimer,
       phase := Connected)
  }

  /** attach: a socket may be open already when it is wrapped. */
  function Attach(o: Options, s: Sup, openNow: bool): Sup {
    var t := s.(muxes := s.muxes + [if openNow then Live else Unopened]);
    if openNow then OnOpen(o, t) else t.(phase := Connecting)
  }

  function Dial(o: Options, s: Sup, openNow: bool): Sup {
    var t := Attach(o, s.(retryTimer := false), openNow);
    t.(dialTimer := if t.phase.Connecting? && o.dialTimeout then Some(|t.muxes| - 1) else t.dialTimer)
  }

  function Delay(o: Options, s: Sup, u: real): int { TsDelay(Cap(o.initial, o.max, s.attempt), u) }

  function ScheduleRedial(o: Options, s: Sup, u: real): Sup {
    s.(attempt := s.attempt + 1, retryTimer := true, phase := Waiting, log := s.log + [Redial(Delay(o, s, u))])
  }

  function AfterDrop(o: Options, s: Sup, redial: bool, u: real): Sup {
    var t := s.(dialTimer := None, stableTimer := false);
    if !redial || !o.reconnect then t.(phase := Disconnected)
    else if t.paused then t.(phase := Paused)
    else ScheduleRedial(o, t, u)
  }

  // ---- the events ----

  function DoPause(o: Options, s: Sup): Sup {
    if s.closed || !o.owned || s.paused then s
    else
      var t := s.(paused := true, retryTimer := false);
      if s.phase.Waiting? then t.(phase := Paused)
      else if s.phase.Connecting? then CloseMux(t.(dialTimer := None, phase := Paused))
      else t
  }

  function DoResume(o: Options, s: Sup, openNow: bool): Sup {
    if s.closed || !s.paused then s
    else
      var t := s.(paused := false, attempt := 0, log := s.log + [Reset]);
      if s.phase.Paused? then Dial(o, t, openNow) else t
  }

  function DoRetryNow(o: Options, s: Sup, openNow: bool): Sup {
    if s.closed || s.paused || !o.owned then s
    else if s.phase.Waiting? || s.phase.Disconnected? then Dial(o, s, openNow)
    else s
  }

  function DoDialTimeout(o: Options, s: Sup, u: real): Sup
    requires s.dialTimer.Some? && Has(s, s.dialTimer.value)
  {
    AfterDrop(o, SetMux(s, s.dialTimer.value, Gone).(dialTimer := None), true, u)
  }

  /** lifecycle.drop: only the current mux matters. */
  function DoDrop(o: Options, s: Sup, i: nat, redial: bool, u: real): Sup
    requires Has(s, i)
  {
    if Current(s, i) then AfterDrop(o, SetMux(s, i, Gone), redial, u) else SetMux(s, i, Gone)
  }

  function DoOpen(o: Options, s: Sup, i: nat): Sup
    requires Has(s, i)
  {
    if Current(s, i) then OnOpen(o, SetMux(s, i, Live)) else SetMux(s, i, Live)
  }

  function DoClose(s: Sup): Sup {
    if s.closed then s
    else CloseMux(s.(closed := true, retryTimer := false, dialTimer := None, stableTimer := false, phase := Closed))
  }

  datatype Event =
    | Pause
    | Resume(openNow: bool)
    | RetryNow(openNow: bool)
    | RetryFires(openNow: bool)
    | DialFires(u: real)
    | StableFires
    | SocketOpens(i: nat)
    | SocketDrops(i: nat, redial: bool, u: real)
    | Close

  /** None when the event cannot happen: a timer that is not armed, a socket
      that does not exist or is gone. */
  function Step(o: Options, s: Sup, e: Event): Option<Sup> {
    match e
    case Pause => Some(DoPause(o, s))
    case Resume(openNow) => Some(DoResume(o, s, openNow))
    case RetryNow(openNow) => Some(DoRetryNow(o, s, openNow))
    case RetryFires(openNow) => if s.retryTimer then Some(Dial(o, s, openNow)) else None
    case DialFires(u) =>
      if s.dialTimer.Some? && Has(s, s.dialTimer.value) && Draw(u) then Some(DoDialTimeout(o, s, u)) else None
    case StableFires =>
      if s.stableTimer then Some(s.(stableTimer := false, attempt := 0, log := s.log + [Reset])) else None
    case SocketOpens(i) => if Has(s, i) && s.muxes[i].Unopened? then Some(DoOpen(o, s, i)) else None
    case SocketDrops(i, redial, u) =>
      if Has(s, i) && !s.muxes[i].Gone? && Draw(u) then Some(DoDrop(o, s, i, redial, u)) else None
    case Close => Some(DoClose(s))
  }

  function Blank(): Sup { Sup(Connecting, 0, false, false, false, None, false, [], []) }

  /** The constructor: wrap a socket, start paused, or dial. */
  function Init(o: Options, startPaused: bool, openNow: bool): Sup {
    if !o.owned then Attach(o, Blank(), openNow)
    else if startPaused then Blank().(paused := true, phase := Paused)
    else Dial(o, Blank(), openNow)
  }

  function Run(o: Options, s: Sup, es: seq<Event>): Option<Sup>
    decreases |es|
  {
    if es == [] then Some(s)
    else
      var t := Step(o, s, es[0]);
      if t.None? then None else Run(o, t.value, es[1..])
  }

  // ---- the invariant ----

  /** fromSocket transports never reconnect, and the schedule is positive. */
  ghost predicate Sane(o: Options) { (o.reconnect ==> o.owned) && o.initial > 0.0 && o.max > 0.0 }

  ghost predicate Timers(o: Options, s: Sup) {
    && (s.retryTimer <==> s.phase.Waiting?)
    && (s.dialTimer.Some? ==> s.phase.Connecting? && Current(s, s.dialTimer.value))
    && (s.stableTimer ==> s.phase.Connected?)
  }

  ghost predicate OneSocket(s: Sup) {
    && (forall i :: 0 <= i < |s.muxes| - 1 ==> s.muxes[i].Gone?)
    && (s.phase.Connecting? <==> s.muxes != [] && s.muxes[|s.muxes| - 1].Unopened?)
    && (s.phase.Connected? <==> s.muxes != [] && s.muxes[|s.muxes| - 1].Live?)
  }

  ghost predicate Flags(o: Options, s: Sup) {
    && (s.closed <==> s.phase.Closed?)
    && (s.paused ==> o.owned && !s.phase.Waiting? && !s.phase.Connecting?)
    && (s.phase.Paused? ==> s.paused)
    && (s.phase.Waiting? ==> o.reconnect)
  }

  ghost predicate Inv(o: Options, s: Sup) { Timers(o, s) && OneSocket(s) && Flags(o, s) }

  /** What an event may do to the sockets: one more at most, and only while dialing is allowed. */
  ghost predicate SocketsOk(s: Sup, t: Sup) {
    && |s.muxes| <= |t.muxes| <= |s.muxes| + 1
    && (|t.muxes| > |s.muxes| ==> !s.closed && !t.paused && !t.closed)
  }

  lemma PauseKeeps(o: Options, s: Sup)
    requires Sane(o) && Inv(o, s)
    ensures Inv(o, DoPause(o, s)) && SocketsOk(s, DoPause(o, s))
  {
  }

  lemma ResumeKeeps(o: Options, s: Sup, openNow: bool)
    requires Sane(o) && Inv(o, s)
    ensures Inv(o, DoResume(o, s, openNow)) && SocketsOk(s, DoResume(o, s, openNow))
  {
  }

  lemma RetryKeeps(o: Options, s: Sup, openNow: bool)
    requires Sane(o) && Inv(o, s)
    ensures Inv(o, DoRetryNow(o, s, openNow)) && SocketsOk(s, DoRetryNow(o, s, openNow))
    ensures s.retryTimer ==> Inv(o, Dial(o, s, openNow)) && SocketsOk(s, Dial(o, s, openNow))
  {
  }

  lemma DropKeeps(o: Options, s: Sup, i: nat, redial: bool, u: real)
    requires Sane(o) && Inv(o, s) && Has(s, i) && !s.muxes[i].Gone?
    ensures Inv(o, DoDrop(o, s, i, redial, u)) && SocketsOk(s, DoDrop(o, s, i, redial, u))
  {
  }

  lemma DialTimeoutKeeps(o: Options, s: Sup, u: real)
    requires Sane(o) && Inv(o, s) && s.dialTimer.Some? && Has(s, s.dialTimer.value)
    ensures Inv(o, DoDialTimeout(o, s, u)) && SocketsOk(s, DoDialTimeout(o, s, u))
  {
  }

  lemma OpenKeeps(o: Options, s: Sup, i: nat)
    requires Sane(o) && Inv(o, s) && Has(s, i) && s.muxes[i].Unopened?
    ensures Inv(o, DoOpen(o, s, i)) && SocketsOk(s, DoOpen(o, s, i))
  {
  }

  lemma StepKeeps(o: Options, s: Sup, e: Event)
    requires Sane(o) && Inv(o, s) && Step(o, s, e).Some?
    ensures Inv(o, Step(o, s, e).value) && SocketsOk(s, Step(o, s, e).value)
  {
    match e
    case Pause => PauseKeeps(o, s);
    case Resume(openNow) => ResumeKeeps(o, s, openNow);
    case RetryNow(openNow) => RetryKeeps(o, s, openNow);
    case RetryFires(openNow) => RetryKeeps(o, s, openNow);
    case DialFires(u) => DialTimeoutKeeps(o, s, u);
    case StableFires =>
    case SocketOpens(i) => OpenKeeps(o, s, i);
    case SocketDrops(i, redial, u) => DropKeeps(o, s, i, redial, u);
    case Close =>
  }

  lemma InitKeeps(o: Options, startPaused: bool, openNow: bool)
    requires Sane(o)
    ensures Inv(o, Init(o, startPaused, openNow))
  {
  }

  lemma {:induction false} RunKeeps(o: Options, s: Sup, es: seq<Event>)
    requires Sane(o) && Inv(o, s) && Run(o, s, es).Some?
    ensures Inv(o, Run(o, s, es).value)
    decreases |es|
  {
    if es != [] {
      StepKeeps(o, s, es[0]);
      RunKeeps(o, Step(o, s, es[0]).value, es[1..]);
    }
  }

  ghost predicate Reaches(o: Options, startPaused: bool, openNow: bool, es: seq<Event>, s: Sup) {
    Sane(o) && Run(o, Init(o, startPaused, openNow), es) == Some(s)
  }

  /** Over every event sequence: each timer is armed only in its phase (the retry
      timer exactly in it), the phase tells the truth about the current socket,
      and no other socket is alive. */
  lemma SupervisorInvariant(o: Options, startPaused: bool, openNow: bool, es: seq<Event>, s: Sup)
    requires Reaches(o, startPaused, openNow, es, s)
    ensures s.retryTimer <==> s.phase.Waiting?
    ensures s.dialTimer.Some? ==> s.phase.Connecting? && Current(s, s.dialTimer.value)
    ensures s.stableTimer ==> s.phase.Connected?
    ensures s.phase.Connecting? <==> s.muxes != [] && s.muxes[|s.muxes| - 1].Unopened?
    ensures s.phase.Connected? <==> s.muxes != [] && s.muxes[|s.muxes| - 1].Live?
    ensures forall i, j :: 0 <= i < |s.muxes| && 0 <= j < |s.muxes| && !s.muxes[i].Gone? && !s.muxes[j].Gone? ==> i == j
    ensures s.phase.Paused? ==> s.paused
    ensures s.closed <==> s.phase.Closed?
  {
    InitKeeps(o, startPaused, openNow);
    RunKeeps(o, Init(o, startPaused, openNow), es);
  }

  /** Over every event sequence: the next event creates a socket only if the transport
      is neither closed nor paused afterwards, and at most one. */
  lemma NoDialWhilePausedOrClosed(o: Options, startPaused: bool, openNow: bool,
                                  es: seq<Event>, s: Sup, e: Event, t: Sup)
    requires Reaches(o, startPaused, openNow, es, s) && Step(o, s, e) == Some(t)
    ensures |s.muxes| <= |t.muxes| <= |s.muxes| + 1
    ensures |t.muxes| > |s.muxes| ==> !s.closed && !t.paused && !t.closed && (s.paused ==> e.Resume?)
  {
    InitKeeps(o, startPaused, openNow);
    RunKeeps(o, Init(o, startPaused, openNow), es);
    StepKeeps(o, s, e);
  }

  /** Closed is terminal: no socket, no timer and no phase change, ever again. */
  lemma {:induction false} ClosedIsTerminal(o: Options, s: Sup, es: seq<Event>)
    requires Sane(o) && Inv(o, s) && s.closed && Run(o, s, es).Some?
    ensures var t := Run(o, s, es).value;
            && t.phase.Closed? && t.closed && |t.muxes| == |s.muxes|
            && !t.retryTimer && t.dialTimer.None? && !t.stableTimer
    decreases |es|
  {
    if es != [] {
      ClosedStep(o, s, es[0]);
      StepKeeps(o, s, es[0]);
      ClosedIsTerminal(o, Step(o, s, es[0]).value, es[1..]);
    }
  }

  lemma ClosedStep(o: Options, s: Sup, e: Event)
    requires Inv(o, s) && s.closed && Step(o, s, e).Some?
    ensures Step(o, s, e).value == s
  {
  }

  // ---- the backoff schedule of a run ----

  /** How many redials were scheduled since the last reset. */
  function RedialsSinceReset(log: seq<Item>): nat {
    if log == [] || log[|log| - 1].Reset? then 0 else RedialsSinceReset(log[..|log| - 1]) + 1
  }

  lemma SinceSnoc(log: seq<Item>, i: Item)
    ensures RedialsSinceReset(log + [i]) == if i.Reset? then 0 else RedialsSinceReset(log) + 1
  {
  }

  /** A redial that is number k since the last reset waits within the k-th cap. */
  ghost predicate OnTime(o: Options, k: nat, i: Item) {
    i.Redial? ==> 0 <= i.delay && i.delay as real < Cap(o.initial, o.max, k) + 1.0
  }

  /** Every logged redial obeys the schedule for its place since the last reset. */
  ghost predicate OnSchedule(o: Options, log: seq<Item>) {
    log != [] ==>
      && OnSchedule(o, log[..|log| - 1])
      && OnTime(o, RedialsSinceReset(log[..|log| - 1]), log[|log| - 1])
  }

  lemma {:induction false} OnScheduleAt(o: Options, log: seq<Item>, j: nat)
    requires OnSchedule(o, log) && j < |log|
    ensures OnTime(o, RedialsSinceReset(log[..j]), log[j])
    decreases |log|
  {
    var init := log[..|log| - 1];
    if j < |init| {
      OnScheduleAt(o, init, j);
      assert init[..j] == log[..j];
    }
  }

  ghost predicate Scheduled(o: Options, attempt: nat, log: seq<Item>) {
    attempt == RedialsSinceReset(log) && OnSchedule(o, log)
  }

  lemma LogSnoc(o: Options, log: seq<Item>, i: Item)
    requires OnSchedule(o, log) && OnTime(o, RedialsSinceReset(log), i)
    ensures OnSchedule(o, log + [i])
  {
    assert (log + [i])[..|log|] == log;
  }

  lemma CapPositive(o: Options, n: nat)
    requires Sane(o)
    ensures Cap(o.initial, o.max, n) >= 0.0
  {
  }

  lemma RedialScheduled(o: Options, s: Sup, u: real)
    requires Sane(o) && Scheduled(o, s.attempt, s.log) && Draw(u)
    ensures Scheduled(o, s.attempt + 1, s.log + [Redial(Delay(o, s, u))])
  {
    CapPositive(o, s.attempt);
    TsDelayBound(Cap(o.initial, o.max, s.attempt), u);
    LogSnoc(o, s.log, Redial(Delay(o, s, u)));
    SinceSnoc(s.log, Redial(Delay(o, s, u)));
  }

  lemma ResetScheduled(o: Options, attempt: nat, log: seq<Item>)
    requires Scheduled(o, attempt, log)
    ensures Scheduled(o, 0, log + [Reset])
  {
    LogSnoc(o, log, Reset);
    SinceSnoc(log, Reset);
  }

  /** All a step can do to the schedule: nothing, reset it once or twice, or one redial. */
  predicate Extends(s: Sup, t: Sup, delay: int) {
    || (t.attempt == s.attempt && t.log == s.log)
    || (t.attempt == 0 && (t.log == s.log + [Reset] || t.log == s.log + [Reset] + [Reset]))
    || (t.attempt == s.attempt + 1 && t.log == s.log + [Redial(delay)])
  }

  predicate Draws(e: Event) { e.DialFires? || e.SocketDrops? }

  lemma DropExtends(o: Options, s: Sup, e: Event)
    requires Step(o, s, e).Some? && Draws(e)
    ensures Extends(s, Step(o, s, e).value, Delay(o, s, e.u))
  {
  }

  /** Without a draw there is no redial. */
  lemma QuietExtends(o: Options, s: Sup, e: Event)
    requires Step(o, s, e).Some? && !Draws(e)
    ensures var t := Step(o, s, e).value;
            (t.attempt == s.attempt && t.log == s.log)
            || (t.attempt == 0 && (t.log == s.log + [Reset] || t.log == s.log + [Reset] + [Reset]))
  {
    match e
    case Pause =>
    case Resume(openNow) => DialExtends(o, s.(paused := false, attempt := 0, log := s.log + [Reset]), openNow);
    case RetryNow(openNow) => DialExtends(o, s, openNow);
    case RetryFires(openNow) => DialExtends(o, s, openNow);
    case StableFires =>
    case SocketOpens(i) =>
    case Close =>
  }

  lemma DialExtends(o: Options, s: Sup, openNow: bool)
    ensures var t := Dial(o, s, openNow);
            (t.attempt == s.attempt && t.log == s.log) || (t.attempt == 0 && t.log == s.log + [Reset])
  {
  }

  lemma StepScheduled(o: Options, s: Sup, e: Event)
    requires Sane(o) && Scheduled(o, s.attempt, s.log) && Step(o, s, e).Some?
    ensures Scheduled(o, Step(o, s, e).value.attempt, Step(o, s, e).value.log)
  {
    if Draws(e) {
      DropExtends(o, s, e);
      ResetScheduled(o, s.attempt, s.log);
      ResetScheduled(o, 0, s.log + [Reset]);
      RedialScheduled(o, s, e.u);
    } else {
      QuietExtends(o, s, e);
      ResetScheduled(o, s.attempt, s.log);
      ResetScheduled(o, 0, s.log + [Reset]);
    }
  }

  lemma {:induction false} RunScheduled(o: Options, s: Sup, es: seq<Event>)
    requires Sane(o) && Scheduled(o, s.attempt, s.log) && Run(o, s, es).Some?
    ensures OnSchedule(o, Run(o, s, es).value.log)
    decreases |es|
  {
    if es != [] {
      StepScheduled(o, s, es[0]);
      RunScheduled(o, Step(o, s, es[0]).value, es[1..]);
    }
  }

  lemma InitScheduled(o: Options, startPaused: bool, openNow: bool)
    ensures var s := Init(o, startPaused, openNow); Scheduled(o, s.attempt, s.log)
  {
    ResetScheduled(o, 0, []);
    assert [] + [Reset] == [Reset];
  }

  /** In every run, the k-th redial since the last reset waits between 0 and
      min(initial * 2^k, max), rounded up to a whole millisecond. */
  lemma RedialsOnSchedule(o: Options, startPaused: bool, openNow: bool, es: seq<Event>, s: Sup, j: nat)
    requires Reaches(o, startPaused, openNow, es, s) && j < |s.log| && s.log[j].Redial?
    ensures var cap := Cap(o.initial, o.max, RedialsSinceReset(s.log[..j]));
            && 0 <= s.log[j].delay && s.log[j].delay as real < cap + 1.0
            && (cap == cap.Floor as real ==> s.log[j].delay as real <= cap)
  {
    InitScheduled(o, startPaused, openNow);
    RunScheduled(o, Init(o, startPaused, openNow), es);
    OnScheduleAt(o, s.log, j);
    var cap := Cap(o.initial, o.max, RedialsSinceReset(s.log[..j]));
    if cap == cap.Floor as real { WholeMilliseconds(s.log[j].delay, cap); }
  }

  lemma WholeMilliseconds(delay: int, cap: real)
    requires delay as real < cap + 1.0 && cap == cap.Floor as real
    ensures delay as real <= cap
  {
    assert delay < cap.Floor + 1;
  }

  // ---- the transport object ----

  /** WsTransport's lifecycle fields, updated in place. `u` is the jitter draw. */
  class WsTransport {
    const o: Options
    var phase: Phase
    var attempt: nat
    var paused: bool
    var closed: bool
    var retryTimer: bool
    var dialTimer: Option<nat>
    var stableTimer: bool
    var muxes: seq<MuxSt>
    ghost var log: seq<Item>

    ghost function State(): Sup
      reads this
    {
      Sup(phase, attempt, paused, closed, retryTimer, dialTimer, stableTimer, muxes, log)
    }

    constructor (o: Options, startPaused: bool, openNow: bool)
      ensures this.o == o && State() == Init(o, startPaused, openNow)
    {
      this.o := o;
      phase, attempt, paused, closed := Connecting, 0, false, false;
      retryTimer, dialTimer, stableTimer, muxes, log := false, None, false, [], [];
      new;
      if !o.owned {
        AttachSocket(openNow);
      } else if startPaused {
        paused := true;
        phase := Paused;
      } else {
        DialSocket(openNow);
      }
    }

    method PauseDialing()
      modifies this
      ensures State() == DoPause(o, old(State()))
    {
      if closed || !o.owned || paused { return; }
      paused := true;
      retryTimer := false;
      if phase.Waiting? {
        phase := Paused;
      } else if phase.Connecting? {
        dialTimer := None;
        CloseCurrent();
        phase := Paused;
      }
    }

    method ResumeDialing(openNow: bool)
      modifies this
      ensures State() == DoResume(o, old(State()), openNow)
    {
      if closed || !paused { return; }
      paused := false;
      attempt := 0;
      log := log + [Reset];
      if phase.Paused? { DialSocket(openNow); }
    }

    method RetryAtOnce(openNow: bool)
      modifies this
      ensures State() == DoRetryNow(o, old(State()), openNow)
    {
      if closed || paused || !o.owned { return; }
      if phase.Waiting? || phase.Disconnected? { DialSocket(openNow); }
    }

    method DialSocket(openNow: bool)
      modifies this
      ensures State() == Dial(o, old(State()), openNow)
    {
      retryTimer := false;
      AttachSocket(openNow);
      if phase.Connecting? && o.dialTimeout { dialTimer := Some(|muxes| - 1); }
    }

    method AttachSocket(openNow: bool)
      modifies this
      ensures State() == Attach(o, old(State()), openNow)
    {
      muxes := muxes + [if openNow then Live else Unopened];
      if openNow { SocketOpened(); } else { phase := Connecting; }
    }

    method SocketOpened()
      modifies this
      ensures State() == OnOpen(o, old(State()))
    {
      dialTimer := None;
      if !o.stableMs {
        attempt := 0;
        log := log + [Reset];
      } else {
        stableTimer := true;
      }
      phase := Connected;
    }

    method ConnectionLost(redial: bool, u: real)
      requires Sane(o)
      modifies this
      ensures State() == AfterDrop(o, old(State()), redial, u)
    {
      dialTimer := None;
      stableTimer := false;
      if !redial || !o.reconnect {
        phase := Disconnected;
        return;
      }
      if paused {
        phase := Paused;
        return;
      }
      var d := TsCap(o.initial, o.max, attempt);
      var delay := TsDelay(d, u);
      attempt := attempt + 1;
      retryTimer := true;
      log := log + [Redial(delay)];
      phase := Waiting;
    }

    method DialTimedOut(u: real)
      requires Sane(o) && dialTimer.Some? && dialTimer.value < |muxes|
      modifies this
      ensures State() == DoDialTimeout(o, old(State()), u)
    {
      var i := dialTimer.value;
      dialTimer := None;
      muxes := muxes[i := Gone];
      ConnectionLost(true, u);
    }

    method CloseTransport()
      modifies this
      ensures State() == DoClose(old(State()))
    {
      if closed { return; }
      closed := true;
      retryTimer, dialTimer, stableTimer := false, None, false;
      CloseCurrent();
      phase := Closed;
    }

    method CloseCurrent()
      modifies this`muxes
      ensures State() == CloseMux(old(State()))
    {
      if |muxes| > 0 { muxes := muxes[|muxes| - 1 := Gone]; }
    }

    // ---- callbacks: timers, and the lifecycle hooks of mux number i ----

    method RetryTimerFired(openNow: bool)
      requires retryTimer
      modifies this
      ensures State() == Dial(o, old(State()), openNow)
    {
      DialSocket(openNow);
    }

    method StableTimerFired()
      requires stableTimer
      modifies this
      ensures State() == old(State()).(stableTimer := false, attempt := 0, log := old(log) + [Reset])
    {
      stableTimer := false;
      attempt := 0;
      log := log + [Reset];
    }

    /** Only the current mux may report that it opened. */
    method MuxOpened(i: nat)
      requires i < |muxes|
      modifies this
      ensures State() == DoOpen(o, old(State()), i)
    {
      muxes := muxes[i := Live];
      if i == |muxes| - 1 { SocketOpened(); }
    }

    /** Only the current mux may report that it dropped. */
    method MuxDropped(i: nat, redial: bool, u: real)
      requires Sane(o) && i < |muxes|
      modifies this
      ensures State() == DoDrop(o, old(State()), i, redial, u)
    {
      muxes := muxes[i := Gone];
      if i == |muxes| - 1 { ConnectionLost(redial, u); }
    }

    /** The object follows the machine on every event that can happen, so what holds of
        every run of the machine holds of it. */
    method Dispatch(e: Event)
      requires Sane(o) && Step(o, State(), e).Some?
      modifies this
      ensures Step(o, old(State()), e) == Some(State())
    {
      match e
      case Pause => PauseDialing();
      case Resume(openNow) => ResumeDialing(openNow);
      case RetryNow(openNow) => RetryAtOnce(openNow);
      case RetryFires(openNow) => RetryTimerFired(openNow);
      case DialFires(u) => DialTimedOut(u);
      case StableFires => StableTimerFired();
      case SocketOpens(i) => MuxOpened(i);
      case SocketDrops(i, redial, u) => MuxDropped(i, redial, u);
      case Close => CloseTransport();
    }

    /** Whole runs: the object ends up where the machine does. */
    method Replay(es: seq<Event>)
      requires Sane(o) && Run(o, State(), es).Some?
      modifies this
      ensures Run(o, old(State()), es) == Some(State())
    {
      for i := 0 to |es|
        invariant Run(o, State(), es[i..]) == Run(o, old(State()), es)
      {
        assert es[i..][0] == es[i] && es[i..][1..] == es[i + 1..];
        Dispatch(es[i]);
      }
    }
  }
}
