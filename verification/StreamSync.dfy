/** The synchronisation of one Go stream: a parked Recv and its one-token
    signal channel, a parked Send and its condition variable, the read loop,
    any number of concurrent failWith callers, and the terminal `endOne`.
    Every step is one critical section, one channel operation or one
    broadcast of wsrpc/stream.go. */
module StreamSync {
  import opened Frames
  import opened GoStream

  /** Where RecvRawContext stands. */
  datatype RecvPc =
    | RIdle
    | RLoop                       // about to popRecv at the top of the loop
    | RSelect                     // found the backlog empty, parked in select
    | RHalf                       // chose halfClosed, about to popRecv
    | RCtxCheck                   // chose ctx.Done, about to look at ended
    | RCtxPop                     // ended was open, about to popRecv
    | REnded                      // in recvEnded, about to popRecv
    | RFrame                      // about to read endFrame
    | RStatus                     // no frame, about to read endSt
    | RApply(f: Frame)            // about to lock in applyEnd
    | RApplied(out: RecvResult)   // endSt set, about to wake senders and cancel

  /** Where SendRaw stands; SChecked holds the mutex. */
  datatype SendPc = SIdle | SWant(n: nat) | SChecked(n: nat) | SParked(n: nat)

  /** Where the read loop stands inside this stream's methods. */
  datatype LoopPc = LIdle | LSignal | LCredit | LEndClose | LEndWake

  /** Who won endOne. */
  datatype Once = Fresh | FrameWon | FailWon

  datatype Sync = Sync(
    st: StreamState,
    token: bool,        // recvSignal holds a wake
    rpc: RecvPc,
    spc: SendPc,
    lpc: LoopPc,
    once: Once,
    registered: bool,
    failSet: nat,       // failWith callers that set endSt and have not broadcast
    failWoken: nat,     // ... have broadcast and not passed endOne
    failDone: nat,      // ... have passed endOne and not cancelled
    results: seq<RecvResult>)

  datatype Event =
    | MsgArrives(p: Payload) | SignalRecv
    | CreditArrives(d: int) | CreditWake
    | HalfCloseArrives
    | EndArrives(f: Frame) | EndClose | EndWake
    | FailSet(why: Status) | FailWake | FailOnce | FailCancel
    | ParentCancel
    | RecvCall | PopStep | SelToken | SelHalf | SelEnded | SelCtx | CtxCheck | CallerCtx
    | ReadFrame | ReadStatus | Apply | ApplyWake
    | SendCall(n: nat) | SendLock | SendPark

  function Init(window: int): Sync {
    Sync(NewStream(1, window, map[]), false, RIdle, SIdle, LIdle, Fresh, true, 0, 0, 0, [])
  }

  /** A sender between its checks and Wait holds the stream mutex. */
  predicate MuFree(s: Sync) { !s.spc.SChecked? }

  /** sync.Cond.Broadcast: a parked sender goes back for the lock. */
  function Woken(spc: SendPc): SendPc { if spc.SParked? then SWant(spc.n) else spc }

  // ---- the read loop ----

  predicate Routes(s: Sync) { s.lpc.LIdle? && s.registered }

  function DoMsg(s: Sync, p: Payload): Sync {
    var over := Overflows(s.st);
    s.(st := TryDeliver(s.st, p).(endSt := if over then Some(OVERFLOW) else s.st.endSt),
       lpc := if s.st.cancelled || over then LIdle else LSignal,
       failSet := if over then s.failSet + 1 else s.failSet,
       registered := !over)
  }

  function DoEndArrives(s: Sync, f: Frame): Sync {
    var wins := s.once.Fresh?;
    s.(st := s.st.(endFrame := if wins then Some(f) else s.st.endFrame),
       once := if wins then FrameWon else s.once,
       lpc := if wins then LEndClose else LIdle,
       registered := wins)
  }

  function DoEndWake(s: Sync): Sync { s.(spc := Woken(s.spc), lpc := LIdle, registered := false) }

  // ---- concurrent failWith callers ----

  function DoFailSet(s: Sync, why: Status): Sync { s.(st := RecordStatus(s.st, why), failSet := s.failSet + 1) }

  function DoFailWake(s: Sync): Sync
    requires s.failSet > 0
  {
    s.(spc := Woken(s.spc), failSet := s.failSet - 1, failWoken := s.failWoken + 1)
  }

  /** endOne.Do blocks while the read loop is inside its own Do. */
  predicate CanFailOnce(s: Sync) { s.failWoken > 0 && !s.lpc.LEndClose? && !s.lpc.LEndWake? }

  function DoFailOnce(s: Sync): Sync
    requires CanFailOnce(s)
  {
    s.(st := s.st.(ended := true),
       once := if s.once.Fresh? then FailWon else s.once,
       failWoken := s.failWoken - 1, failDone := s.failDone + 1)
  }

  // ---- the receiver ----

  predicate AtPop(pc: RecvPc) { pc.RLoop? || pc.RHalf? || pc.RCtxPop? || pc.REnded? }

  /** Where a pop that found nothing goes, and what it reports. */
  function AfterEmpty(pc: RecvPc): RecvPc { if pc.RLoop? then RSelect else if pc.REnded? then RFrame else RIdle }

  function EmptyReport(pc: RecvPc): seq<RecvResult> {
    if pc.RHalf? then [Eof] else if pc.RCtxPop? then [CtxErr] else []
  }

  function DoPop(s: Sync): Sync {
    var empty := s.st.recvItems == [];
    s.(st := if empty then s.st else PopRecv(s.st),
       rpc := if empty then AfterEmpty(s.rpc) else RIdle,
       results := s.results + if empty then EmptyReport(s.rpc) else [Data(s.st.recvItems[0])])
  }

  function DoReadFrame(s: Sync): Sync {
    s.(rpc := if s.st.endFrame.Some? then RApply(s.st.endFrame.value) else RStatus)
  }

  function DoReadStatus(s: Sync): Sync {
    s.(rpc := RIdle, results := s.results + [StatusOutcome(s.st.endSt)])
  }

  predicate CanApply(s: Sync) { s.rpc.RApply? && (s.rpc.f.End? || s.rpc.f.Rst?) && MuFree(s) }

  function DoApply(s: Sync): Sync
    requires CanApply(s)
  {
    s.(st := RecordEnd(s.st, s.rpc.f), rpc := RApplied(FrameOutcome(s.rpc.f)))
  }

  function DoApplyWake(s: Sync): Sync
    requires s.rpc.RApplied?
  {
    s.(st := Cancel(s.st), spc := Woken(s.spc), rpc := RIdle, results := s.results + [s.rpc.out])
  }

  // ---- the sender ----

  function DoSendLock(s: Sync): Sync
    requires s.spc.SWant?
  {
    var decision := SendDecision(s.st);
    s.(st := s.st.(sendWindow := if decision.Reserved? then s.st.sendWindow - s.spc.n else s.st.sendWindow),
       spc := if decision.MustWait? then SChecked(s.spc.n) else SIdle)
  }

  /** None when the step is not enabled. */
  function Step(s: Sync, e: Event): Option<Sync> {
    match e
    case MsgArrives(p) => if Routes(s) && MuFree(s) then Some(DoMsg(s, p)) else None
    case SignalRecv => if s.lpc.LSignal? then Some(s.(token := true, lpc := LIdle)) else None
    case CreditArrives(d) =>
      if Routes(s) && MuFree(s)
      then Some(s.(st := CreditSend(s.st, d), lpc := if d > 0 then LCredit else LIdle))
      else None
    case CreditWake => if s.lpc.LCredit? then Some(s.(spc := Woken(s.spc), lpc := LIdle)) else None
    case HalfCloseArrives => if Routes(s) then Some(s.(st := CloseInbound(s.st))) else None
    case EndArrives(f) => if Routes(s) && MuFree(s) && (f.End? || f.Rst?) then Some(DoEndArrives(s, f)) else None
    case EndClose => if s.lpc.LEndClose? then Some(s.(st := CloseEnded(s.st), lpc := LEndWake)) else None
    case EndWake => if s.lpc.LEndWake? then Some(DoEndWake(s)) else None
    case FailSet(why) => if MuFree(s) then Some(DoFailSet(s, why)) else None
    case FailWake => if s.failSet > 0 then Some(DoFailWake(s)) else None
    case FailOnce => if CanFailOnce(s) then Some(DoFailOnce(s)) else None
    case FailCancel => if s.failDone > 0 then Some(s.(st := Cancel(s.st), failDone := s.failDone - 1)) else None
    case ParentCancel => Some(s.(st := Cancel(s.st)))
    case RecvCall => if s.rpc.RIdle? then Some(s.(rpc := RLoop)) else None
    case PopStep => if AtPop(s.rpc) && MuFree(s) then Some(DoPop(s)) else None
    case SelToken => if s.rpc.RSelect? && s.token then Some(s.(token := false, rpc := RLoop)) else None
    case SelHalf => if s.rpc.RSelect? && s.st.halfClosed then Some(s.(rpc := RHalf)) else None
    case SelEnded => if s.rpc.RSelect? && s.st.ended then Some(s.(rpc := REnded)) else None
    case SelCtx => if s.rpc.RSelect? && s.st.cancelled then Some(s.(rpc := RCtxCheck)) else None
    case CtxCheck => if s.rpc.RCtxCheck? then Some(s.(rpc := if s.st.ended then REnded else RCtxPop)) else None
    case CallerCtx => if s.rpc.RSelect? then Some(s.(rpc := RIdle)) else None
    case ReadFrame => if s.rpc.RFrame? && MuFree(s) then Some(DoReadFrame(s)) else None
    case ReadStatus => if s.rpc.RStatus? && MuFree(s) then Some(DoReadStatus(s)) else None
    case Apply => if CanApply(s) then Some(DoApply(s)) else None
    case ApplyWake => if s.rpc.RApplied? then Some(DoApplyWake(s)) else None
    case SendCall(n) => if s.spc.SIdle? then Some(s.(spc := SWant(n))) else None
    case SendLock => if s.spc.SWant? && MuFree(s) then Some(DoSendLock(s)) else None
    case SendPark => if s.spc.SChecked? then Some(s.(spc := SParked(s.spc.n))) else None
  }

  function Run(s: Sync, es: seq<Event>): Option<Sync>
    decreases |es|
  {
    if es == [] then Some(s)
    else
      var t := Step(s, es[0]);
      if t.None? then None else Run(t.value, es[1..])
  }

  lemma {:induction false} RunConcat(s: Sync, a: seq<Event>, b: seq<Event>)
    requires Run(s, a).Some?
    ensures Run(s, a + b) == Run(Run(s, a).value, b)
    decreases |a|
  {
    if a == [] {
      assert a + b == b;
    } else {
      assert (a + b)[1..] == a[1..] + b && (a + b)[0] == a[0];
      RunConcat(Step(s, a[0]).value, a[1..], b);
    }
  }

  // ---- no lost wakeup ----

  /** A parked Recv with something to take has its token, or the read loop is about to post it. */
  ghost predicate RecvAwake(s: Sync) {
    s.rpc.RSelect? && s.st.recvItems != [] ==> s.token || s.lpc.LSignal?
  }

  /** A parked Send with credit or a recorded status has its broadcast still coming. */
  ghost predicate SendAwake(s: Sync) {
    && (s.spc.SChecked? ==> s.st.sendWindow <= 0 && s.st.endSt.None?)
    && (s.spc.SParked? && s.st.sendWindow > 0 ==> s.lpc.LCredit?)
    && (s.spc.SParked? && s.st.endSt.Some? ==> s.failSet > 0 || s.rpc.RApplied?)
  }

  lemma StepKeepsRecvAwake(s: Sync, e: Event)
    requires RecvAwake(s) && Step(s, e).Some?
    ensures RecvAwake(Step(s, e).value)
  {
  }

  lemma ReceiverKeepsSendAwake(s: Sync, e: Event)
    requires SendAwake(s) && Step(s, e).Some? && ReceiverStep(e)
    ensures SendAwake(Step(s, e).value)
  {
  }

  lemma StepKeepsSendAwake(s: Sync, e: Event)
    requires SendAwake(s) && Step(s, e).Some?
    ensures SendAwake(Step(s, e).value)
  {
    if ReceiverStep(e) { ReceiverKeepsSendAwake(s, e); }
  }

  // ---- who ended the stream ----

  /** The first to pass endOne decides whether there is a terminal frame. */
  ghost predicate Decided(s: Sync) {
    && (s.once.FrameWon? <==> s.st.endFrame.Some?)
    && (s.st.endFrame.Some? ==> s.st.endFrame.value.End? || s.st.endFrame.value.Rst?)
    && (s.rpc.RApply? ==> s.st.endFrame == Some(s.rpc.f))
  }

  /** `ended` is closed once endOne is passed, and a won frame unregisters the stream. */
  ghost predicate Closing(s: Sync) {
    && (s.lpc.LEndClose? || s.lpc.LEndWake? ==> s.once.FrameWon?)
    && (s.st.ended <==> !s.once.Fresh? && !s.lpc.LEndClose?)
    && (s.once.FrameWon? ==> !s.registered || s.lpc.LEndClose? || s.lpc.LEndWake?)
  }

  ghost predicate Coherent(s: Sync) { Decided(s) && Closing(s) }

  lemma ReceiverKeepsDecided(s: Sync, e: Event)
    requires Decided(s) && Step(s, e).Some? && ReceiverStep(e)
    ensures Decided(Step(s, e).value)
  {
  }

  lemma StepKeepsDecided(s: Sync, e: Event)
    requires Decided(s) && Step(s, e).Some?
    ensures Decided(Step(s, e).value)
  {
    if ReceiverStep(e) { ReceiverKeepsDecided(s, e); }
  }

  /** A receiver touches nothing that says how the stream ends but the recorded status, and
      that only to apply the terminal frame. */
  lemma ReceiverLeavesEnd(s: Sync, e: Event)
    requires Step(s, e).Some? && ReceiverStep(e)
    ensures var t := Step(s, e).value;
            && t.once == s.once && t.lpc == s.lpc && t.registered == s.registered
            && t.st.endFrame == s.st.endFrame && t.st.ended == s.st.ended && t.st.halfClosed == s.st.halfClosed
            && (t.st.endSt == s.st.endSt || s.rpc.RApply?)
  {
  }

  lemma StepKeepsClosing(s: Sync, e: Event)
    requires Closing(s) && Step(s, e).Some?
    ensures Closing(Step(s, e).value)
  {
    if ReceiverStep(e) { ReceiverLeavesEnd(s, e); }
  }

  lemma StepKeepsCoherent(s: Sync, e: Event)
    requires Coherent(s) && Step(s, e).Some?
    ensures Coherent(Step(s, e).value)
  {
    StepKeepsDecided(s, e);
    StepKeepsClosing(s, e);
  }

  ghost predicate Inv(s: Sync) { RecvAwake(s) && SendAwake(s) && Coherent(s) }

  lemma {:induction false} RunKeepsInv(s: Sync, es: seq<Event>)
    requires Inv(s) && Run(s, es).Some?
    ensures Inv(Run(s, es).value)
    decreases |es|
  {
    if es != [] {
      StepKeepsRecvAwake(s, es[0]);
      StepKeepsSendAwake(s, es[0]);
      StepKeepsCoherent(s, es[0]);
      RunKeepsInv(Step(s, es[0]).value, es[1..]);
    }
  }

  ghost predicate Reaches(window: int, es: seq<Event>, s: Sync) { Run(Init(window), es) == Some(s) }

  /** Over every run: a receiver is never parked beside a backlog once the read
      loop is out of the stream, and a sender is never parked beside credit or a
      recorded status once every waker has finished its broadcast. */
  lemma NoLostWakeup(window: int, es: seq<Event>, s: Sync)
    requires Reaches(window, es, s)
    ensures s.rpc.RSelect? && s.st.recvItems != [] ==> s.token || s.lpc.LSignal?
    ensures s.spc.SParked? && !s.lpc.LCredit? ==> s.st.sendWindow <= 0
    ensures s.spc.SParked? && s.failSet == 0 && !s.rpc.RApplied? ==> s.st.endSt.None?
  {
    RunKeepsInv(Init(window), es);
  }

  lemma RunCons(s: Sync, e: Event, t: Sync, es: seq<Event>)
    requires Step(s, e) == Some(t)
    ensures Run(s, [e] + es) == Run(t, es)
  {
  }

  // ---- the third waker: signalEnd ----

  /** Some continuation leaves the sender parked after signalEnd's broadcast is over. */
  ghost predicate CanMiss(s: Sync) {
    exists es, t :: Run(s, es) == Some(t) && t.lpc.LIdle? && t.spc.SParked?
  }

  /** A status on its way to a broadcast has been recorded. */
  ghost predicate Recorded(s: Sync) { s.failSet > 0 || s.rpc.RApplied? ==> s.st.endSt.Some? }

  lemma StepKeepsRecorded(s: Sync, e: Event)
    requires Recorded(s) && Step(s, e).Some?
    ensures Recorded(Step(s, e).value)
  {
  }

  /** signalEnd is under way and no sender can slip past its broadcast: while `ended` is
      open a send has a reason to give up or is parked already, and nobody is
      between its check and its wait. */
  ghost predicate Caught(s: Sync) {
    && Recorded(s) && !s.spc.SChecked?
    && match s.lpc
       case LEndClose => s.spc.SParked? || SendBlockError(s.st).Some?
       case LEndWake => s.st.ended
       case LIdle => s.st.ended && !s.registered && !s.spc.SParked?
       case _ => false
  }

  lemma ReceiverKeepsCaught(s: Sync, e: Event)
    requires Caught(s) && Step(s, e).Some? && ReceiverStep(e)
    ensures Caught(Step(s, e).value)
  {
    StepKeepsRecorded(s, e);
  }

  lemma StepKeepsCaught(s: Sync, e: Event)
    requires Caught(s) && Step(s, e).Some?
    ensures Caught(Step(s, e).value)
  {
    if ReceiverStep(e) { ReceiverKeepsCaught(s, e); } else { StepKeepsRecorded(s, e); }
  }

  lemma {:induction false} CaughtRuns(s: Sync, es: seq<Event>)
    requires Caught(s) && Run(s, es).Some?
    ensures Caught(Run(s, es).value)
    decreases |es|
  {
    if es != [] {
      StepKeepsCaught(s, es[0]);
      CaughtRuns(Step(s, es[0]).value, es[1..]);
    }
  }

  lemma CaughtNeverMisses(s: Sync)
    requires Caught(s)
    ensures !CanMiss(s)
  {
    forall es, t | Run(s, es) == Some(t) ensures !(t.lpc.LIdle? && t.spc.SParked?) {
      CaughtRuns(s, es);
    }
  }

  /** A sender between its check and its wait parks after the broadcast. */
  lemma CheckedMisses(s: Sync)
    requires s.lpc.LEndWake? && s.spc.SChecked?
    ensures CanMiss(s)
  {
    var d := DoEndWake(s);
    var t := d.(spc := SParked(d.spc.n));
    RunCons(d, SendPark, t, []);
    RunCons(s, EndWake, d, [SendPark] + []);
    assert Run(s, [EndWake] + ([SendPark] + [])) == Some(t);
  }

  /** signalEnd broadcasts outside the mutex. At that point the exact condition for a
      missed wakeup: the sender has checked and does not wait yet. */
  lemma BroadcastMissedIff(window: int, es: seq<Event>, s: Sync)
    requires Reaches(window, es, s) && s.lpc.LEndWake?
    ensures CanMiss(s) <==> s.spc.SChecked?
  {
    RunKeepsInv(Init(window), es);
    RunKeepsRecorded(Init(window), es);
    if s.spc.SChecked? { CheckedMisses(s); } else { CaughtNeverMisses(s); }
  }

  lemma {:induction false} RunKeepsRecorded(s: Sync, es: seq<Event>)
    requires Recorded(s) && Run(s, es).Some?
    ensures Recorded(Run(s, es).value)
    decreases |es|
  {
    if es != [] {
      StepKeepsRecorded(s, es[0]);
      RunKeepsRecorded(Step(s, es[0]).value, es[1..]);
    }
  }

  lemma MissPrepends(s: Sync, e: Event, t: Sync)
    requires Step(s, e) == Some(t) && CanMiss(t)
    ensures CanMiss(s)
  {
    var es, u :| Run(t, es) == Some(u) && u.lpc.LIdle? && u.spc.SParked?;
    RunCons(s, e, t, es);
    assert Run(s, [e] + es) == Some(u);
  }

  /** How far a sender is from being between its check and its wait. */
  function Ahead(spc: SendPc, window: int): nat {
    match spc
    case SChecked(_) => 0
    case SWant(n) => if window <= 0 then 1 else if n >= window then 3 else 5
    case _ => if window <= 0 then 2 else 4
  }

  /** While `ended` is still open and nothing is recorded, the sender can use up its
      window, check, and then let signalEnd finish. */
  lemma {:induction false} OpenMisses(s: Sync)
    requires s.lpc.LEndClose? && !s.spc.SParked? && (s.spc.SChecked? || SendBlockError(s.st).None?)
    ensures CanMiss(s)
    decreases Ahead(s.spc, s.st.sendWindow)
  {
    match s.spc
    case SChecked(_) =>
      var t := s.(st := CloseEnded(s.st), lpc := LEndWake);
      CheckedMisses(t);
      MissPrepends(s, EndClose, t);
    case SWant(_) =>
      var t := DoSendLock(s);
      OpenMisses(t);
      MissPrepends(s, SendLock, t);
    case SIdle =>
      var t := s.(spc := SWant(if s.st.sendWindow > 0 then s.st.sendWindow else 0));
      OpenMisses(t);
      MissPrepends(s, SendCall(t.spc.n), t);
  }

  /** Seen from the arrival of END or RST, over every reachable state: a send can miss it
      exactly when nothing is recorded or cancelled yet and no sender is
      parked already. */
  lemma SignalEndMissedIff(window: int, es: seq<Event>, s: Sync, f: Frame)
    requires Reaches(window, es, s) && s.once.Fresh? && Step(s, EndArrives(f)).Some?
    ensures CanMiss(Step(s, EndArrives(f)).value) <==> SendBlockError(s.st).None? && !s.spc.SParked?
  {
    RunKeepsInv(Init(window), es);
    RunKeepsRecorded(Init(window), es);
    var t := DoEndArrives(s, f);
    if SendBlockError(s.st).None? && !s.spc.SParked? { OpenMisses(t); } else { CaughtNeverMisses(t); }
  }

  /** The missed sender stays parked until a failWith or another Recv reaches applyEnd. */
  lemma {:induction false} MissedSenderStaysParked(s: Sync, es: seq<Event>)
    requires s.spc.SParked? && s.lpc.LIdle? && !s.registered && s.failSet == 0 && !s.rpc.RApplied?
    requires forall i :: 0 <= i < |es| ==> !es[i].FailSet? && !es[i].Apply?
    requires Run(s, es).Some?
    ensures Run(s, es).value.spc.SParked?
    decreases |es|
  {
    if es != [] {
      MissedStep(s, es[0]);
      MissedSenderStaysParked(Step(s, es[0]).value, es[1..]);
    }
  }

  lemma MissedStep(s: Sync, e: Event)
    requires s.spc.SParked? && s.lpc.LIdle? && !s.registered && s.failSet == 0 && !s.rpc.RApplied?
    requires !e.FailSet? && !e.Apply? && Step(s, e).Some?
    ensures var t := Step(s, e).value;
            t.spc.SParked? && t.lpc.LIdle? && !t.registered && t.failSet == 0 && !t.rpc.RApplied?
  {
  }

  // ---- terminal stability ----

  /** The i-th receive after the end: first the backlog, then the outcome for good. */
  function Expected(backlog: seq<Payload>, out: RecvResult, i: nat): RecvResult {
    if i < |backlog| then Data(backlog[i]) else out
  }

  /** What the terminal of an ended stream stands for. */
  function Outcome(s: Sync): RecvResult {
    if s.st.endFrame.Some? then FrameOutcome(s.st.endFrame.value) else StatusOutcome(s.st.endSt)
  }

  /** Nothing more can enter the stream, and half-close cannot contradict the outcome. */
  ghost predicate Sealed(s: Sync, out: RecvResult) {
    && Coherent(s)
    && s.st.ended
    && (!s.registered || s.lpc.LEndWake?)
    && (s.st.halfClosed ==> out == Eof)
    && Outcome(s) == out
  }

  /** The receiver is on a path that reports the backlog or the outcome. */
  ghost predicate OnPath(s: Sync, out: RecvResult) {
    && !s.rpc.RCtxPop?
    && (s.rpc.RHalf? ==> out == Eof)
    && (s.rpc.RFrame? || s.rpc.RStatus? || s.rpc.RApply? || s.rpc.RApplied? ==> s.st.recvItems == [])
    && (s.rpc.RStatus? ==> s.st.endFrame.None?)
    && (s.rpc.RApplied? ==> s.rpc.out == out)
  }

  ghost predicate Drains(s: Sync, base: nat, backlog: seq<Payload>, out: RecvResult) {
    && base <= |s.results|
    && (forall i :: base <= i < |s.results| ==> s.results[i] == Expected(backlog, out, i - base))
    && s.st.recvItems == (if |s.results| - base <= |backlog| then backlog[|s.results| - base..] else [])
  }

  /** A later failWith may overwrite endSt, but only matters when there is no frame. */
  ghost predicate Quiets(s: Sync, e: Event) { e.FailSet? ==> s.st.endFrame.Some? }

  lemma StepKeepsSealed(s: Sync, e: Event, out: RecvResult)
    requires Sealed(s, out) && Quiets(s, e) && Step(s, e).Some?
    ensures Sealed(Step(s, e).value, out)
  {
    StepKeepsCoherent(s, e);
    if ReceiverStep(e) { ReceiverLeavesEnd(s, e); }
  }

  /** Only the receiver's own steps touch its position, the backlog and the results. */
  predicate ReceiverStep(e: Event) {
    e.RecvCall? || e.PopStep? || e.SelToken? || e.SelHalf? || e.SelEnded? || e.SelCtx? || e.CtxCheck?
    || e.CallerCtx? || e.ReadFrame? || e.ReadStatus? || e.Apply? || e.ApplyWake?
  }

  lemma OthersLeaveReceiver(s: Sync, e: Event, out: RecvResult)
    requires Sealed(s, out) && Step(s, e).Some? && !ReceiverStep(e)
    ensures var t := Step(s, e).value;
            && t.rpc == s.rpc && t.results == s.results
            && t.st.recvItems == s.st.recvItems && t.st.endFrame == s.st.endFrame
  {
  }

  lemma ReceiverStaysOnPath(s: Sync, e: Event, out: RecvResult)
    requires Sealed(s, out) && OnPath(s, out) && Step(s, e).Some? && ReceiverStep(e)
    ensures OnPath(Step(s, e).value, out)
  {
  }

  lemma PopDrains(s: Sync, base: nat, backlog: seq<Payload>, out: RecvResult)
    requires OnPath(s, out) && Drains(s, base, backlog, out) && AtPop(s.rpc)
    ensures Drains(DoPop(s), base, backlog, out)
  {
  }

  lemma ReceiverDrains(s: Sync, e: Event, base: nat, backlog: seq<Payload>, out: RecvResult)
    requires Sealed(s, out) && OnPath(s, out) && Drains(s, base, backlog, out)
    requires Step(s, e).Some? && ReceiverStep(e)
    ensures Drains(Step(s, e).value, base, backlog, out)
  {
    if e.PopStep? {
      PopDrains(s, base, backlog, out);
    } else {
      ReceiverReports(s, e, out);
    }
  }

  /** Besides popping, a receive only reports the outcome, and only when nothing is left. */
  lemma ReceiverReports(s: Sync, e: Event, out: RecvResult)
    requires Sealed(s, out) && OnPath(s, out) && Step(s, e).Some? && ReceiverStep(e) && !e.PopStep?
    ensures var t := Step(s, e).value;
            && t.st.recvItems == s.st.recvItems
            && (t.results == s.results || (t.results == s.results + [out] && s.st.recvItems == []))
  {
    if !e.ReadStatus? && !e.ApplyWake? { ReceiverSilent(s, e); }
  }

  lemma ReceiverSilent(s: Sync, e: Event)
    requires Step(s, e).Some? && ReceiverStep(e) && !e.PopStep? && !e.ReadStatus? && !e.ApplyWake?
    ensures Step(s, e).value.st.recvItems == s.st.recvItems && Step(s, e).value.results == s.results
  {
  }

  lemma {:induction false} SealedRuns(s: Sync, es: seq<Event>, base: nat, backlog: seq<Payload>, out: RecvResult)
    requires Sealed(s, out) && OnPath(s, out) && Drains(s, base, backlog, out) && Run(s, es).Some?
    requires s.st.endFrame.None? ==> forall i :: 0 <= i < |es| ==> !es[i].FailSet?
    ensures Sealed(Run(s, es).value, out) && Drains(Run(s, es).value, base, backlog, out)
    decreases |es|
  {
    if es != [] {
      var t := Step(s, es[0]).value;
      StepKeepsSealed(s, es[0], out);
      EndFrameStays(s, es[0]);
      if ReceiverStep(es[0]) {
        ReceiverStaysOnPath(s, es[0], out);
        ReceiverDrains(s, es[0], base, backlog, out);
      } else {
        OthersLeaveReceiver(s, es[0], out);
      }
      SealedRuns(t, es[1..], base, backlog, out);
    }
  }

  /** Once somebody won endOne, the terminal frame never changes. */
  lemma EndFrameStays(s: Sync, e: Event)
    requires Step(s, e).Some? && !s.once.Fresh?
    ensures Step(s, e).value.st.endFrame == s.st.endFrame && Step(s, e).value.once == s.once
  {
    if ReceiverStep(e) { ReceiverLeavesEnd(s, e); }
  }

  /** Every receive after s reports the backlog of s in order, then the outcome of s. */
  ghost predicate Follows(s: Sync, t: Sync) {
    && |s.results| <= |t.results|
    && forall i :: |s.results| <= i < |t.results| ==>
         t.results[i] == Expected(s.st.recvItems, Outcome(s), i - |s.results|)
  }

  /** No further failWith starts. */
  ghost predicate NoFailure(es: seq<Event>) { forall i :: 0 <= i < |es| ==> !es[i].FailSet? }

  /** Receives the whole backlog, one call at a time. */
  lemma {:induction false} DrainAll(s: Sync) returns (es: seq<Event>, t: Sync)
    requires s.rpc.RIdle? && MuFree(s)
    ensures Run(s, es) == Some(t)
    ensures t.rpc.RIdle? && MuFree(t) && t.st.recvItems == [] && t.st.halfClosed == s.st.halfClosed
    ensures |t.results| == |s.results| + |s.st.recvItems| && NoFailure(es)
    decreases |s.st.recvItems|
  {
    if s.st.recvItems == [] {
      es, t := [], s;
    } else {
      var a := s.(rpc := RLoop);
      var b := DoPop(a);
      var rest;
      rest, t := DrainAll(b);
      RunCons(a, PopStep, b, rest);
      RunCons(s, RecvCall, a, [PopStep] + rest);
      es := [RecvCall] + ([PopStep] + rest);
    }
  }

  /** select may prefer halfClosed to ended, and then Recv reports a clean end. */
  lemma HalfClosePreempts(s: Sync) returns (es: seq<Event>, t: Sync)
    requires s.rpc.RIdle? && MuFree(s) && s.st.recvItems == [] && s.st.halfClosed
    ensures Run(s, es) == Some(t) && t.results == s.results + [Eof] && NoFailure(es)
  {
    var a := s.(rpc := RLoop);
    var b := DoPop(a);
    var c := b.(rpc := RHalf);
    t := DoPop(c);
    RunCons(c, PopStep, t, []);
    var rest := [PopStep] + [];
    RunCons(b, SelHalf, c, rest);
    rest := [SelHalf] + rest;
    RunCons(a, PopStep, b, rest);
    rest := [PopStep] + rest;
    RunCons(s, RecvCall, a, rest);
    es := [RecvCall] + rest;
  }

  /** Beside a half-close, draining and one more receive contradict any other outcome. */
  lemma Preempted(s: Sync) returns (es: seq<Event>, t: Sync)
    requires s.rpc.RIdle? && s.st.halfClosed && Outcome(s) != Eof
    ensures Run(s, es) == Some(t) && !Follows(s, t) && NoFailure(es)
  {
    var free := s.(spc := if s.spc.SChecked? then SParked(s.spc.n) else s.spc);
    var es0, u := DrainAll(free);
    var es1;
    es1, t := HalfClosePreempts(u);
    RunConcat(free, es0, es1);
    es := es0 + es1;
    if s.spc.SChecked? {
      RunCons(s, SendPark, free, es);
      es := [SendPark] + es;
    }
    var last := |t.results| - 1;
    assert t.results[last] == Eof != Expected(s.st.recvItems, Outcome(s), last - |s.results|);
  }

  /** After a terminal frame won, all later receives are determined, whatever failWith
      and applyEnd calls race with them, exactly when the peer has not half-closed
      (or the frame itself says a clean end). */
  lemma FrameOutcomeStableIff(s: Sync)
    requires Coherent(s) && s.once.FrameWon? && s.st.ended && s.rpc.RIdle?
    ensures (forall es, t :: Run(s, es) == Some(t) ==> Follows(s, t)) <==> (s.st.halfClosed ==> Outcome(s) == Eof)
  {
    if s.st.halfClosed && Outcome(s) != Eof {
      var es, t := Preempted(s);
      assert Run(s, es) == Some(t) && !Follows(s, t);
    } else {
      forall es, t | Run(s, es) == Some(t) ensures Follows(s, t) {
        SealedRuns(s, es, |s.results|, s.st.recvItems, Outcome(s));
      }
    }
  }

  /** After a failWith won, no frame ever replaces it, in any run. */
  lemma {:induction false} FailureKeepsFramesOut(s: Sync, es: seq<Event>)
    requires s.once.FailWon? && s.st.endFrame.None? && Run(s, es).Some?
    ensures Run(s, es).value.once.FailWon? && Run(s, es).value.st.endFrame.None?
    decreases |es|
  {
    if es != [] {
      EndFrameStays(s, es[0]);
      FailureKeepsFramesOut(Step(s, es[0]).value, es[1..]);
    }
  }

  /** ... and once the stream is out of the registry, every later receive reports the
      backlog and then the recorded status, until another failWith overwrites it,
      exactly when the peer has not half-closed (or the status is OK). */
  lemma FailureOutcomeStableIff(s: Sync)
    requires Coherent(s) && s.once.FailWon? && s.st.ended && !s.registered && s.rpc.RIdle?
    ensures (forall es, t :: Run(s, es) == Some(t) && NoFailure(es) ==> Follows(s, t))
            <==> (s.st.halfClosed ==> Outcome(s) == Eof)
  {
    if s.st.halfClosed && Outcome(s) != Eof {
      var es, t := Preempted(s);
      assert Run(s, es) == Some(t) && NoFailure(es) && !Follows(s, t);
    } else {
      forall es, t | Run(s, es) == Some(t) && NoFailure(es) ensures Follows(s, t) {
        SealedRuns(s, es, |s.results|, s.st.recvItems, Outcome(s));
      }
    }
  }

  /** Among frameless failures the last one wins. */
  lemma LastFailureWins(s: Sync, why: Status) returns (es: seq<Event>, t: Sync)
    requires Coherent(s) && s.once.FailWon? && s.st.ended && s.rpc.RIdle? && MuFree(s) && s.st.recvItems == []
    ensures Run(s, es) == Some(t) && t.results == s.results + [StatusOutcome(Some(why))]
  {
    var z := DoFailSet(s, why);
    var a := z.(rpc := RLoop);
    var b := DoPop(a);
    var c := b.(rpc := REnded);
    var d := DoPop(c);
    var g := DoReadFrame(d);
    t := DoReadStatus(g);
    RunCons(g, ReadStatus, t, []);
    var rest := [ReadStatus] + [];
    RunCons(d, ReadFrame, g, rest);
    rest := [ReadFrame] + rest;
    RunCons(c, PopStep, d, rest);
    rest := [PopStep] + rest;
    RunCons(b, SelEnded, c, rest);
    rest := [SelEnded] + rest;
    RunCons(a, PopStep, b, rest);
    rest := [PopStep] + rest;
    RunCons(z, RecvCall, a, rest);
    rest := [RecvCall] + rest;
    RunCons(s, FailSet(why), z, rest);
    es := [FailSet(why)] + rest;
  }

  // ---- the failing sides are reached ----

  /** A half-close and then an error END, seen before any receive. */
  lemma PreemptionHappens(window: int) returns (es: seq<Event>, s: Sync)
    ensures Reaches(window, es, s) && Coherent(s) && s.once.FrameWon? && s.st.ended && s.rpc.RIdle?
    ensures s.st.halfClosed && Outcome(s) != Eof
  {
    var f := End(1, Some(Status(2, "failed")), None);
    var i := Init(window);
    var a := i.(st := CloseInbound(i.st));
    var b := DoEndArrives(a, f);
    s := b.(st := CloseEnded(b.st), lpc := LEndWake);
    RunCons(b, EndClose, s, []);
    RunCons(a, EndArrives(f), b, [EndClose] + []);
    RunCons(i, HalfCloseArrives, a, [EndArrives(f)] + ([EndClose] + []));
    es := [HalfCloseArrives] + ([EndArrives(f)] + ([EndClose] + []));
    RunKeepsInv(i, es);
  }

  /** An END right after the stream was opened. */
  lemma MissHappens(window: int, f: Frame)
    requires f.End? || f.Rst?
    ensures Step(Init(window), EndArrives(f)).Some? && CanMiss(Step(Init(window), EndArrives(f)).value)
  {
    SignalEndMissedIff(window, [], Init(window), f);
  }
}
