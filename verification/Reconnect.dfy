/** The Go reconnect controller and its waiters (wsrpc/reconnect.go,
    wsrpc/client.go). Each step is one section under cc.mu or one channel
    operation; NewStream callers, Close and the controller interleave. */
module Reconnect {
  import opened Frames

  /** A dialed mux: serving, lost its connection, or closed by us. */
  datatype MuxSt = Alive | Down | Shut

  /** What the lock guards. Channel numbers below waitCh are closed; closeCh is
      closed together with `closed`. */
  datatype Conn = Conn(mux: Option<nat>, closed: bool, waitCh: nat)

  /** Where reconnector.run stands. */
  datatype RunPc =
    | Top
    | Watching(m: nat)     // waiting for the mux to die or the conn to close
    | Dropping(m: nat)     // the mux died, about to take the lock
    | Redialing
    | Dialed(m: nat)       // about to take the lock and install
    | Discarding(m: nat)   // closed meanwhile, about to close the new mux
    | Stopped

  /** A NewStream caller. */
  datatype Waiter = Parked(ch: nat) | Got(m: nat) | Refused

  datatype Client = Client(
    conn: Conn,
    muxes: seq<MuxSt>,
    pc: RunPc,
    closing: Option<nat>,  // Close released the lock and is about to close this mux
    waiters: map<nat, Waiter>)

  datatype Event =
    | MuxDies(m: nat)
    | Observe              // top of run
    | SeeDeath | SeeClose  // the controller's selects
    | DropMux
    | DialSucceeds | GiveUp
    | Install
    | Discard
    | NewStream(t: nat)
    | Wake(t: nat)         // the captured channel was closed
    | Leave(t: nat)        // ctx.Done, or closeCh
    | Close | FinishClose

  /** After Dial: one live mux; the controller runs only with WithReconnect. */
  function Init(reconnect: bool): Client {
    Client(Conn(Some(0), false, 0), [Alive], if reconnect then Top else Stopped, None, map[])
  }

  function Broadcast(c: Conn): Conn { c.(waitCh := c.waitCh + 1) }

  /** One pass of waitForMux's loop under the lock. */
  function WaitPass(c: Conn): Waiter {
    if c.closed then Refused else if c.mux.Some? then Got(c.mux.value) else Parked(c.waitCh)
  }

  /** NewStream's own check, which falls through to waitForMux. */
  function Acquire(c: Conn): Waiter { if c.mux.Some? then Got(c.mux.value) else WaitPass(c) }

  function Installed(c: Conn, m: nat): Conn { Broadcast(c.(mux := Some(m))) }

  function ClosedConn(c: Conn): Conn { Broadcast(c.(closed := true, mux := None)) }

  function DoObserve(s: Client): Client {
    s.(pc := if s.conn.closed || s.conn.mux.None? then Stopped else Watching(s.conn.mux.value))
  }

  function DoDropMux(s: Client): Client {
    s.(conn := s.conn.(mux := if s.conn.closed then s.conn.mux else None),
       pc := if s.conn.closed then Stopped else Redialing)
  }

  function DoInstall(s: Client): Client
    requires s.pc.Dialed?
  {
    s.(conn := if s.conn.closed then s.conn else Installed(s.conn, s.pc.m),
       pc := if s.conn.closed then Discarding(s.pc.m) else Top)
  }

  function DoClose(s: Client): Client {
    s.(conn := if s.conn.closed then s.conn else ClosedConn(s.conn),
       closing := if s.conn.closed then s.closing else s.conn.mux)
  }

  predicate IsParked(s: Client, t: nat) { t in s.waiters && s.waiters[t].Parked? }

  function SetMux(ms: seq<MuxSt>, m: nat, st: MuxSt): seq<MuxSt> { if m < |ms| then ms[m := st] else ms }

  function Step(s: Client, e: Event): Option<Client> {
    match e
    case MuxDies(m) => if m < |s.muxes| && s.muxes[m].Alive? then Some(s.(muxes := SetMux(s.muxes, m, Down))) else None
    case Observe => if s.pc.Top? then Some(DoObserve(s)) else None
    case SeeDeath =>
      if s.pc.Watching? && s.pc.m < |s.muxes| && !s.muxes[s.pc.m].Alive? then Some(s.(pc := Dropping(s.pc.m))) else None
    case SeeClose => if s.pc.Watching? && s.conn.closed then Some(s.(pc := Stopped)) else None
    case DropMux => if s.pc.Dropping? then Some(DoDropMux(s)) else None
    case DialSucceeds => if s.pc.Redialing? then Some(s.(muxes := s.muxes + [Alive], pc := Dialed(|s.muxes|))) else None
    case GiveUp => if s.pc.Redialing? && s.conn.closed then Some(s.(pc := Stopped)) else None
    case Install => if s.pc.Dialed? then Some(DoInstall(s)) else None
    case Discard => if s.pc.Discarding? then Some(s.(muxes := SetMux(s.muxes, s.pc.m, Shut), pc := Stopped)) else None
    case NewStream(t) => if t !in s.waiters then Some(s.(waiters := s.waiters[t := Acquire(s.conn)])) else None
    case Wake(t) =>
      if IsParked(s, t) && s.waiters[t].ch < s.conn.waitCh
      then Some(s.(waiters := s.waiters[t := WaitPass(s.conn)]))
      else None
    case Leave(t) => if IsParked(s, t) then Some(s.(waiters := s.waiters[t := Refused])) else None
    case Close => Some(DoClose(s))
    case FinishClose =>
      if s.closing.Some? then Some(s.(muxes := SetMux(s.muxes, s.closing.value, Shut), closing := None)) else None
  }

  function Run(s: Client, es: seq<Event>): Option<Client>
    decreases |es|
  {
    if es == [] then Some(s)
    else
      var t := Step(s, es[0]);
      if t.None? then None else Run(t.value, es[1..])
  }

  // ---- the invariant ----

  /** A caller parked on a channel that is still open waits for the right thing. */
  ghost predicate WaitersOk(s: Client) {
    forall t :: t in s.waiters && s.waiters[t].Parked? ==>
      && s.waiters[t].ch <= s.conn.waitCh
      && (s.waiters[t].ch == s.conn.waitCh ==> s.conn.mux.None? && !s.conn.closed)
  }

  /** Who is responsible for the gap: without a mux, the controller is redialing. */
  ghost predicate ControllerOk(s: Client) {
    && (s.conn.closed ==> s.conn.mux.None?)
    && (s.conn.mux.None? && !s.conn.closed ==> s.pc.Redialing? || s.pc.Dialed?)
    && (s.pc.Redialing? || s.pc.Dialed? ==> s.conn.mux.None?)
    && (s.pc.Watching? || s.pc.Dropping? ==> s.conn.closed || s.conn.mux == Some(s.pc.m))
    && (s.pc.Discarding? ==> s.conn.closed)
    && (s.closing.Some? ==> s.conn.closed)
  }

  /** Every mux that still serves is installed, about to be installed or closed, or in
      the hands of Close. */
  ghost predicate NoLeak(s: Client) {
    && (s.conn.mux.Some? ==> s.conn.mux.value < |s.muxes|)
    && (s.pc.Dialed? || s.pc.Discarding? || s.pc.Watching? || s.pc.Dropping? ==> s.pc.m < |s.muxes|)
    && (s.closing.Some? ==> s.closing.value < |s.muxes|)
    && (s.pc.Dropping? ==> !s.muxes[s.pc.m].Alive?)
    && (forall i :: 0 <= i < |s.muxes| && s.muxes[i].Alive? ==>
          s.conn.mux == Some(i) || s.closing == Some(i) || s.pc == Dialed(i) || s.pc == Discarding(i))
  }

  ghost predicate Inv(s: Client) { WaitersOk(s) && ControllerOk(s) && NoLeak(s) }

  lemma StepKeepsWaiters(s: Client, e: Event)
    requires WaitersOk(s) && ControllerOk(s) && Step(s, e).Some?
    ensures WaitersOk(Step(s, e).value)
  {
  }

  lemma StepKeepsController(s: Client, e: Event)
    requires ControllerOk(s) && Step(s, e).Some?
    ensures ControllerOk(Step(s, e).value)
  {
  }

  predicate ChangesMuxes(e: Event) { e.MuxDies? || e.DialSucceeds? || e.Discard? || e.FinishClose? }

  lemma MuxChangeKeepsNoLeak(s: Client, e: Event)
    requires NoLeak(s) && ControllerOk(s) && ChangesMuxes(e) && Step(s, e).Some?
    ensures NoLeak(Step(s, e).value)
  {
  }

  lemma StepKeepsNoLeak(s: Client, e: Event)
    requires NoLeak(s) && ControllerOk(s) && Step(s, e).Some?
    ensures NoLeak(Step(s, e).value)
  {
    if ChangesMuxes(e) { MuxChangeKeepsNoLeak(s, e); }
  }

  lemma {:induction false} RunKeeps(s: Client, es: seq<Event>)
    requires Inv(s) && Run(s, es).Some?
    ensures Inv(Run(s, es).value)
    decreases |es|
  {
    if es != [] {
      StepKeepsWaiters(s, es[0]);
      StepKeepsController(s, es[0]);
      StepKeepsNoLeak(s, es[0]);
      RunKeeps(Step(s, es[0]).value, es[1..]);
    }
  }

  ghost predicate Reaches(reconnect: bool, es: seq<Event>, s: Client) { Run(Init(reconnect), es) == Some(s) }

  /** In every interleaving: a caller parked on an open channel holds the current one,
      there is no mux and the conn is open, and the controller is at work on a
      new mux. */
  lemma WaitersAreServed(reconnect: bool, es: seq<Event>, s: Client, t: nat)
    requires Reaches(reconnect, es, s) && IsParked(s, t)
    ensures s.waiters[t].ch >= s.conn.waitCh ==>
      && s.waiters[t].ch == s.conn.waitCh && s.conn.mux.None? && !s.conn.closed
      && (s.pc.Redialing? || s.pc.Dialed?)
    ensures s.waiters[t].ch < s.conn.waitCh ==> Step(s, Wake(t)).Some?
  {
    RunKeeps(Init(reconnect), es);
  }

  /** In every interleaving: at the top of its loop the controller of an open conn finds a
      mux, so its early return on a nil mux is never taken. */
  lemma RunFindsMux(reconnect: bool, es: seq<Event>, s: Client)
    requires Reaches(reconnect, es, s) && s.pc.Top? && !s.conn.closed
    ensures s.conn.mux.Some?
  {
    RunKeeps(Init(reconnect), es);
  }

  /** In every interleaving after Close: no mux is installed, ever; new callers are
      refused; and once Close and the controller are through, no dialed mux still serves. */
  lemma NothingSurvivesClose(reconnect: bool, es: seq<Event>, s: Client, rest: seq<Event>, z: Client)
    requires Reaches(reconnect, es, s) && s.conn.closed && Run(s, rest) == Some(z)
    ensures z.conn.closed && z.conn.mux.None? && Acquire(z.conn) == Refused
    ensures z.closing.None? && z.pc.Stopped? ==> forall i :: 0 <= i < |z.muxes| ==> !z.muxes[i].Alive?
  {
    RunKeeps(Init(reconnect), es);
    RunKeeps(s, rest);
    ClosedForever(s, rest);
  }

  lemma {:induction false} ClosedForever(s: Client, es: seq<Event>)
    requires s.conn.closed && Run(s, es).Some?
    ensures Run(s, es).value.conn.closed
    decreases |es|
  {
    if es != [] {
      StaysClosed(s, es[0]);
      ClosedForever(Step(s, es[0]).value, es[1..]);
    }
  }

  lemma StaysClosed(s: Client, e: Event)
    requires s.conn.closed && Step(s, e).Some?
    ensures Step(s, e).value.conn.closed
  {
  }

  /** An install wakes every parked caller, whichever channel it captured, and each
      of them gets the new mux. */
  lemma InstallServesEveryWaiter(reconnect: bool, es: seq<Event>, s: Client, t: nat)
    requires Reaches(reconnect, es, s) && s.pc.Dialed? && !s.conn.closed && IsParked(s, t)
    ensures var u := DoInstall(s);
            && Step(u, Wake(t)).Some?
            && Step(u, Wake(t)).value.waiters[t] == Got(s.pc.m)
  {
    RunKeeps(Init(reconnect), es);
  }

  // ---- the connection object ----

  /** ClientConn's guarded fields; each method is one section under cc.mu. */
  class ClientConn {
    var mux: Option<nat>
    var closed: bool
    var waitCh: nat

    ghost function State(): Conn
      reads this
    {
      Conn(mux, closed, waitCh)
    }

    constructor (m: nat)
      ensures State() == Conn(Some(m), false, 0)
    {
      mux, closed, waitCh := Some(m), false, 0;
    }

    /** One pass of waitForMux's loop: what the caller gets, or what it parks on. */
    method TryWait() returns (w: Waiter)
      ensures w == WaitPass(State())
    {
      if closed { return Refused; }
      if mux.Some? { return Got(mux.value); }
      return Parked(waitCh);
    }

    method TryNewStream() returns (w: Waiter)
      ensures w == Acquire(State())
    {
      if mux.Some? { return Got(mux.value); }
      w := TryWait();
    }

    /** run after the mux died: false means the conn was closed meanwhile. */
    method DropDead() returns (open: bool)
      modifies this`mux
      ensures open == !closed
      ensures mux == if open then None else old(mux)
    {
      if closed { return false; }
      mux := None;
      return true;
    }

    method BroadcastLocked()
      modifies this`waitCh
      ensures State() == Broadcast(old(State()))
    {
      waitCh := waitCh + 1;
    }

    /** The controller installs a fresh mux; false means the caller must close it. */
    method InstallMux(m: nat) returns (ok: bool)
      modifies this
      ensures ok == !old(closed)
      ensures State() == if ok then Installed(old(State()), m) else old(State())
    {
      if closed { return false; }
      mux := Some(m);
      BroadcastLocked();
      return true;
    }

    /** Close's locked part; the result is the mux to close outside the lock. */
    method Shutdown() returns (toClose: Option<nat>)
      modifies this
      ensures toClose == if old(closed) then None else old(mux)
      ensures State() == if old(closed) then old(State()) else ClosedConn(old(State()))
    {
      if closed { return None; }
      closed := true;
      toClose := mux;
      mux := None;
      BroadcastLocked();
    }
  }

  // ---- the goroutines around it ----

  /** A conn, the muxes that were dialed, the controller, Close and the NewStream callers. */
  class ClientRuntime {
    const conn: ClientConn
    var muxes: seq<MuxSt>
    var pc: RunPc
    var closing: Option<nat>
    var waiters: map<nat, Waiter>

    ghost function State(): Client
      reads this, conn
    {
      Client(conn.State(), muxes, pc, closing, waiters)
    }

    constructor (reconnect: bool)
      ensures State() == Init(reconnect) && fresh(conn)
    {
      conn := new ClientConn(0);
      muxes, pc, closing, waiters := [Alive], if reconnect then Top else Stopped, None, map[];
    }

    method SetMuxState(m: nat, st: MuxSt)
      modifies this`muxes
      ensures muxes == SetMux(old(muxes), m, st)
    {
      if m < |muxes| { muxes := muxes[m := st]; }
    }

    /** The top of run's loop. */
    method ObserveConn()
      modifies this`pc
      ensures State() == DoObserve(old(State()))
    {
      if conn.closed || conn.mux.None? { pc := Stopped; } else { pc := Watching(conn.mux.value); }
    }

    method DropMuxStep()
      modifies this`pc, conn
      ensures State() == DoDropMux(old(State()))
    {
      var open := conn.DropDead();
      pc := if open then Redialing else Stopped;
    }

    method InstallStep()
      requires pc.Dialed?
      modifies this`pc, conn
      ensures State() == DoInstall(old(State()))
    {
      var ok := conn.InstallMux(pc.m);
      pc := if ok then Top else Discarding(pc.m);
    }

    method CloseStep()
      modifies this`closing, conn
      ensures State() == DoClose(old(State()))
    {
      var first := !conn.closed;
      var toClose := conn.Shutdown();
      if first { closing := toClose; }
    }

    method CallNewStream(t: nat)
      modifies this`waiters
      ensures State() == old(State()).(waiters := old(waiters)[t := Acquire(old(conn.State()))])
    {
      var w := conn.TryNewStream();
      waiters := waiters[t := w];
    }

    method WakeWaiter(t: nat)
      modifies this`waiters
      ensures State() == old(State()).(waiters := old(waiters)[t := WaitPass(old(conn.State()))])
    {
      var w := conn.TryWait();
      waiters := waiters[t := w];
    }

    /** The objects follow the machine on every step that is enabled, so what holds of every
        run of the machine holds of them. */
    method Dispatch(e: Event)
      requires Step(State(), e).Some?
      modifies this, conn
      ensures Step(old(State()), e) == Some(State())
    {
      match e
      case MuxDies(m) => SetMuxState(m, Down);
      case Observe => ObserveConn();
      case SeeDeath => pc := Dropping(pc.m);
      case SeeClose => pc := Stopped;
      case DropMux => DropMuxStep();
      case DialSucceeds => muxes, pc := muxes + [Alive], Dialed(|muxes|);
      case GiveUp => pc := Stopped;
      case Install => InstallStep();
      case Discard => SetMuxState(pc.m, Shut); pc := Stopped;
      case NewStream(t) => CallNewStream(t);
      case Wake(t) => WakeWaiter(t);
      case Leave(t) => waiters := waiters[t := Refused];
      case Close => CloseStep();
      case FinishClose => SetMuxState(closing.value, Shut); closing := None;
    }

    /** Whole runs: the objects end up where the machine does. */
    method Replay(es: seq<Event>)
      requires Run(State(), es).Some?
      modifies this, conn
      ensures Run(old(State()), es) == Some(State())
    {
      for i := 0 to |es|
        invariant Run(State(), es[i..]) == Run(old(State()), es)
      {
        assert es[i..][0] == es[i] && es[i..][1..] == es[i + 1..];
        Dispatch(es[i]);
      }
    }
  }
}
