/** The TypeScript mux and its streams as objects: the mux's map holds the
    registered streams, callers may hold streams that left it, and the hooks of
    a stream write through the mux. Each method is proved to do what the
    function of the same name in TsMux does. */
module TsClient {
  import opened Frames
  import opened Queues
  import opened TsStream
  import opened TsMux

  class StreamImpl {
    const id: nat
    var out: Out
    var inn: In
    var fate: Fate

    ghost function Value(): Strm
      reads this
    {
      Strm(out, inn, fate)
    }

    constructor (id: nat, window: int)
      ensures this.id == id && Value() == New(LimitOr(window, DEFAULT_INITIAL_WINDOW))
    {
      this.id := id;
      out := Out(if window > 0 then window else DEFAULT_INITIAL_WINDOW, [], 0, [], []);
      inn := In(Empty(), [], 0, 0);
      fate := Fate(false, false, 0, 0, None, 0, None, 0, 0, [], []);
    }

    method ResolveLeadingHeaders(h: Headers)
      modifies this`fate
      ensures fate == ResolveLeading(old(fate), h)
    {
      if fate.leading.Some? { return; }
      fate := fate.(leading := Some(h), leadingCalls := fate.leadingCalls + 1);
    }

    method ResolveHeaders(h: Headers)
      modifies this`fate
      ensures fate == ResolveTrailers(old(fate), h)
    {
      ResolveLeadingHeaders(map[]);
      if fate.trailers.Some? { return; }
      fate := fate.(trailers := Some(h), trailerCalls := fate.trailerCalls + 1);
    }

    /** Runs the registered callbacks in order. */
    method RunCallbacks()
      modifies this`fate
      ensures fate == RunClose(old(fate))
    {
      var cbs := fate.waiting;
      fate := fate.(waiting := []);
      for i := 0 to |cbs|
        invariant fate == old(fate).(waiting := [], ran := old(fate).ran + cbs[..i])
      {
        fate := fate.(ran := fate.ran + [cbs[i]]);
        assert cbs[..i] + [cbs[i]] == cbs[..i + 1];
      }
      assert cbs[..|cbs|] == cbs;
    }

    method PushMsg(p: Payload)
      modifies this
      ensures Value() == old(Value()).(fate := ResolveLeading(old(fate), map[]), inn := Arrive(old(inn), p))
    {
      ResolveLeadingHeaders(map[]);
      var q := inn.queue;
      inn := inn.(queue := Pushed(q, p), buffered := inn.buffered + |p|);
      if !Terminated(q) && q.waiters != [] { inn := inn.(continuing := inn.continuing + [p]); }
    }

    method FinishOk(h: Headers)
      modifies this
      ensures Value() == EndOk(old(Value()), h)
    {
      if fate.finished { return; }
      fate := fate.(finished := true, terminals := fate.terminals + 1);
      ResolveHeaders(h);
      inn := inn.(queue := Finished(inn.queue));
      RunCallbacks();
    }

    method FinishError(why: Status, h: Headers)
      modifies this
      ensures Value() == EndError(old(Value()), why, h)
    {
      if fate.finished { return; }
      fate := fate.(finished := true, terminals := fate.terminals + 1);
      ResolveHeaders(h);
      inn := inn.(queue := FailedWith(inn.queue, Some(why)));
      RunCallbacks();
    }

    /** recv after its await, up to the hook: the credit to announce, 0 for none. */
    method TakeBack(window: int) returns (delta: nat)
      requires inn.continuing != []
      modifies this`inn
      ensures inn == Resume(old(inn), fate.finished, window)
      ensures delta == if !fate.finished && Flushes(old(inn), |old(inn).continuing[0]|, window)
                       then old(inn).pending + |old(inn).continuing[0]| else 0
    {
      var n := |inn.continuing[0]|;
      inn := inn.(continuing := inn.continuing[1..], buffered := inn.buffered - n);
      if n <= 0 || fate.finished { return 0; }
      inn := inn.(pending := inn.pending + n);
      if inn.pending < Threshold(window) { return 0; }
      delta := inn.pending;
      inn := inn.(pending := 0);
    }

    method RegisterCallback()
      modifies this`fate
      ensures fate == OnClose(old(fate))
    {
      if fate.finished {
        fate := fate.(hooked := fate.hooked + 1, ran := fate.ran + [fate.hooked]);
      } else {
        fate := fate.(hooked := fate.hooked + 1, waiting := fate.waiting + [fate.hooked]);
      }
    }
  }

  ghost function Values(all: map<nat, StreamImpl>): map<nat, Strm>
    reads all.Values
  {
    map id | id in all :: all[id].Value()
  }

  class MuxClient {
    const c: Config
    var life: Life
    var wire: Wire
    var streams: map<nat, StreamImpl>
    var nextId: nat
    ghost var all: map<nat, StreamImpl>   // every stream ever opened

    ghost predicate Valid()
      reads this`all, this`streams, this`nextId
    {
      && Normal(c)
      && (forall id :: id in all ==> all[id].id == id && id < nextId)
      && (forall id :: id in streams ==> id in all && streams[id] == all[id])
    }

    ghost function State(): Mux
      reads this, all.Values
    {
      Mux(life, wire, Values(all), streams.Keys, nextId)
    }

    /** A socket that is open already needs no flush: nothing is buffered yet. */
    constructor (window: int, maxSendBuffer: int, size: Sent -> nat, openNow: bool)
      ensures Valid() && c == Configured(window, maxSendBuffer, size)
      ensures State() == if openNow then Flush(TsMux.Init()) else TsMux.Init()
    {
      c := Config(if window > 0 then window else DEFAULT_INITIAL_WINDOW,
                  if maxSendBuffer > 0 then maxSendBuffer else DEFAULT_MAX_SEND_BUFFER, size);
      life := Life(openNow, false, false, None, true, 0, false);
      wire := Wire([], 0, [], []);
      streams, nextId, all := map[], 1, map[];
    }

    /** Streams are filed under their own ids, so a change to one is a change to one. */
    twostate lemma OneChanged(s: StreamImpl)
      requires unchanged(this) && Valid() && s.id in all && all[s.id] == s
      requires unchanged(all.Values - {s})
      ensures State() == Put(old(State()), s.id, s.Value())
    {
      assert Values(all) == old(Values(all))[s.id := s.Value()];
    }

    // ---- the connection ----

    /** The streams that left the map have failed, the others are as before. */
    ghost predicate FailedSoFar(before: map<nat, Strm>, registered: set<nat>, why: Status)
      reads this, all.Values
    {
      && Valid() && before.Keys == all.Keys && streams.Keys <= registered
      && (forall id :: id in all ==>
            all[id].Value() ==
              if id in registered && id !in streams then EndError(before[id], why, map[]) else before[id])
    }

    method FailAll(why: Status)
      requires Valid()
      modifies this`streams, all.Values
      ensures Valid() && streams == map[]
      ensures Values(all) == EndAll(old(Values(all)), old(streams.Keys), why)
    {
      ghost var before, registered := Values(all), streams.Keys;
      while streams.Keys != {}
        invariant FailedSoFar(before, registered, why)
        decreases streams.Keys
      {
        var id :| id in streams.Keys;
        FailNext(id, why, before, registered);
      }
    }

    method FailNext(id: nat, why: Status, ghost before: map<nat, Strm>, ghost registered: set<nat>)
      requires id in streams && FailedSoFar(before, registered, why)
      modifies this`streams, streams[id]
      ensures FailedSoFar(before, registered, why) && streams.Keys == old(streams.Keys) - {id}
    {
      streams[id].FinishError(why, map[]);
      streams := streams - {id};
    }

    method MarkDefunct(why: Status)
      requires Valid()
      modifies this, all.Values
      ensures Valid() && all == old(all) && State() == Kill(old(State()), why)
    {
      if life.terminal.None? { life := life.(terminal := Some(why)); }
      wire := wire.(buffer := [], bytes := 0);
      FailAll(why);
    }

    method NotifyDrop()
      modifies this`life
      ensures life == Notified(old(life))
    {
      if life.owned { life := life.(drops := life.drops + 1); }
      life := life.(owned := false);
    }

    method Fail(why: Status)
      requires Valid()
      modifies this, all.Values
      ensures Valid() && all == old(all) && State() == FailConn(old(State()), why)
    {
      life := life.(closed := true);
      MarkDefunct(why);
      NotifyDrop();
    }

    method OnTransportDrop()
      requires Valid()
      modifies this, all.Values
      ensures Valid() && all == old(all)
      ensures State() == if Defunct(old(State())) then old(State()) else DropConn(old(State()))
    {
      if life.closed || life.dead { return; }
      life := life.(dead := true);
      MarkDefunct(LOST);
      NotifyDrop();
    }

    method CloseMux(why: Status)
      requires Valid()
      modifies this, all.Values
      ensures Valid() && all == old(all)
      ensures State() == if old(life.closed) then old(State()) else CloseConn(old(State()), why)
    {
      if life.closed { return; }
      life := life.(closed := true);
      life := life.(owned := false);
      MarkDefunct(why);
    }

    /** Sends, buffers, or fails the connection. */
    method Write(f: Sent)
      requires Valid()
      modifies this, all.Values
      ensures Valid() && all == old(all) && State() == WriteFrame(c, old(State()), f)
    {
      if life.closed || life.dead { life := life.(threw := true); return; }
      if life.isOpen {
        wire := wire.(socket := wire.socket + [f], written := wire.written + [f]);
        return;
      }
      if wire.bytes + c.size(f) > MAX_PREOPEN_BUFFER_BYTES {
        Fail(PREOPEN_OVERFLOW);
        return;
      }
      wire := wire.(buffer := wire.buffer + [f], bytes := wire.bytes + c.size(f), written := wire.written + [f]);
    }

    /** onopen with the right subprotocol: the buffered frames go out in order. */
    method OpenAndFlush()
      requires Valid() && !life.closed && !life.dead
      modifies this`life, this`wire
      ensures Valid() && State() == Flush(old(State()))
    {
      life := life.(isOpen := true);
      for i := 0 to |wire.buffer|
        invariant life == old(life).(isOpen := true)
        invariant i <= |wire.buffer| && wire == old(wire).(socket := old(wire).socket + wire.buffer[..i])
      {
        wire := wire.(socket := wire.socket + [wire.buffer[i]]);
      }
      assert wire.buffer[..|wire.buffer|] == wire.buffer;
      wire := wire.(buffer := [], bytes := 0);
    }

    method OnOpen(protocolOk: bool)
      requires Valid()
      modifies this, all.Values
      ensures Valid() && all == old(all) && State() == TsMux.Step(c, old(State()), SocketOpen(protocolOk))
    {
      if life.closed || life.dead { return; }
      if !protocolOk {
        Fail(Status(CODE_UNAVAILABLE, "server did not negotiate subprotocol"));
        return;
      }
      OpenAndFlush();
    }

    // ---- streams ----

    /** The pump's loop: the window is spent before the hook runs, and the hook may end the stream. */
    method PumpStream(s: StreamImpl)
      requires Valid() && s.id in all && all[s.id] == s
      modifies this, all.Values
      ensures Valid() && all == old(all) && State() == Pump(c, old(State()), s.id)
    {
      while s.out.queue != [] && s.out.window > 0 && !s.fate.finished
        invariant Valid() && all == old(all)
        invariant Pump(c, State(), s.id) == Pump(c, old(State()), s.id)
        decreases |s.out.queue|
      {
        PumpTurn(s);
      }
    }

    method PumpTurn(s: StreamImpl)
      requires Valid() && s.id in all && all[s.id] == s && CanPump(s.Value())
      modifies this, all.Values
      ensures Valid() && all == old(all) && State() == PumpOne(c, old(State()), s.id)
      ensures |s.out.queue| < old(|s.out.queue|)
    {
      var p := s.out.queue[0];
      ShiftCall(s);
      WriteKeepsOut(c, State(), MsgF(s.id, p));
      Write(MsgF(s.id, p));
      assert State().streams[s.id].out == s.out;
    }

    method ShiftCall(s: StreamImpl)
      requires Valid() && s.id in all && all[s.id] == s && s.out.queue != []
      modifies s
      ensures s.out == Shift(old(s.out))
      ensures State() == Put(old(State()), s.id, old(s.Value()).(out := Shift(old(s.out))))
    {
      var n := |s.out.queue[0]|;
      s.out := s.out.(queue := s.out.queue[1..], bytes := s.out.bytes - n, window := s.out.window - n,
                      handed := s.out.handed + [s.out.queue[0]]);
      OneChanged(s);
    }

    method Send(s: StreamImpl, p: Payload)
      requires Valid() && s.id in all && all[s.id] == s
      modifies this, all.Values
      ensures Valid() && all == old(all) && State() == SendMsg(c, old(State()), s.id, p)
    {
      if s.fate.sendClosed || s.fate.finished { return; }
      if s.out.bytes > c.maxSendBuffer {
        AbortCall(s, SEND_OVERFLOW);
        return;
      }
      s.out := s.out.(queue := s.out.queue + [p], bytes := s.out.bytes + |p|, accepted := s.out.accepted + [p]);
      OneChanged(s);
      PumpStream(s);
    }

    method Credit(s: StreamImpl, delta: int)
      requires Valid() && s.id in all && all[s.id] == s
      modifies this, all.Values
      ensures Valid() && all == old(all) && State() == CreditStream(c, old(State()), s.id, delta)
    {
      if delta <= 0 { return; }
      s.out := s.out.(window := s.out.window + delta);
      OneChanged(s);
      PumpStream(s);
    }

    method HalfCloseCall(s: StreamImpl)
      requires Valid() && s.id in all && all[s.id] == s
      modifies this, all.Values
      ensures Valid() && all == old(all) && State() == CloseSend(c, old(State()), s.id)
    {
      if s.fate.sendClosed || s.fate.finished { return; }
      s.fate := s.fate.(sendClosed := true);
      OneChanged(s);
      Write(HalfCloseF(s.id));
    }

    /** What cancel and abort share: the flags, then the reset hook. */
    method ResetCall(s: StreamImpl)
      requires Valid() && s.id in all && all[s.id] == s
      modifies this, all.Values
      ensures Valid() && all == old(all) && State() == ResetHook(c, old(State()), s.id)
    {
      MarkCall(s);
      Write(RstF(s.id));
      Detach(s.id);
    }

    method MarkCall(s: StreamImpl)
      requires Valid() && s.id in all && all[s.id] == s
      modifies s
      ensures State() == Put(old(State()), s.id, old(s.Value()).(fate := MarkReset(old(s.fate))))
    {
      s.fate := s.fate.(finished := true, sendClosed := true,
                        terminals := s.fate.terminals + 1, resets := s.fate.resets + 1);
      OneChanged(s);
    }

    method Detach(id: nat)
      requires Valid()
      modifies this`streams
      ensures Valid() && State() == old(State()).(registered := old(streams.Keys) - {id})
    {
      streams := streams - {id};
    }

    method AbortCall(s: StreamImpl, why: Status)
      requires Valid() && s.id in all && all[s.id] == s
      modifies this, all.Values
      ensures Valid() && all == old(all) && State() == AbortStream(c, old(State()), s.id, why)
    {
      if s.fate.finished { return; }
      ResetCall(s);
      label Hooked:
      s.ResolveHeaders(map[]);
      s.inn := s.inn.(queue := FailedWith(s.inn.queue, Some(why)));
      s.RunCallbacks();
      OneChanged@Hooked(s);
    }

    method CancelCall(s: StreamImpl)
      requires Valid() && s.id in all && all[s.id] == s
      modifies this, all.Values
      ensures Valid() && all == old(all) && State() == CancelStream(c, old(State()), s.id)
    {
      if s.fate.finished { return; }
      ResetCall(s);
      label Hooked:
      s.ResolveHeaders(map[]);
      s.inn := s.inn.(queue := Finished(s.inn.queue));
      s.RunCallbacks();
      OneChanged@Hooked(s);
    }

    /** recv up to its await. */
    method BeginRecv(s: StreamImpl)
      requires Valid() && s.id in all && all[s.id] == s
      modifies s
      ensures State() == Put(old(State()), s.id, old(s.Value()).(inn := Request(old(s.inn))))
    {
      var q := s.inn.queue;
      s.inn := s.inn.(queue := Pulled(q));
      if q.values != [] { s.inn := s.inn.(continuing := s.inn.continuing + [q.values[0]]); }
      OneChanged(s);
    }

    /** recv after its await: give back the bytes, and announce them in batches. */
    method FinishRecv(s: StreamImpl) returns (p: Payload)
      requires Valid() && s.id in all && all[s.id] == s && s.inn.continuing != []
      modifies this, all.Values
      ensures Valid() && all == old(all) && p == old(s.inn.continuing[0])
      ensures State() == ResumeRecv(c, old(State()), s.id)
    {
      p := s.inn.continuing[0];
      var delta := s.TakeBack(c.window);
      OneChanged(s);
      if delta > 0 { Write(WindowF(s.id, delta)); }
    }

    // ---- inbound frames ----

    method Handle(f: Frame)
      requires Valid()
      modifies this, all.Values
      ensures Valid() && all == old(all) && State() == HandleFrame(c, old(State()), f)
    {
      if f.id !in streams { return; }
      var s := streams[f.id];
      match f
      case Header(_, h) =>
        s.ResolveLeadingHeaders(h);
        OneChanged(s);
      case WindowUpdate(_, w) => Credit(s, w);
      case Msg(_, p) => HandleMsg(s, p);
      case End(_, st, h) => HandleEnd(s, ErrorOf(st), TrailersOf(h));
      case Rst(_, st, h) => HandleEnd(s, Some(ResetError(st)), TrailersOf(h));
      case _ =>
    }

    method HandleMsg(s: StreamImpl, p: Payload)
      requires Valid() && s.id in streams && streams[s.id] == s
      modifies this, all.Values
      ensures Valid() && all == old(all)
      ensures old(s.inn.buffered) > c.window ==>
        var y := AbortStream(c, old(State()), s.id, RECV_OVERFLOW); State() == y.(registered := y.registered - {s.id})
      ensures old(s.inn.buffered) <= c.window ==>
        State() == Put(old(State()), s.id,
                       old(s.Value()).(fate := ResolveLeading(old(s.fate), map[]), inn := Arrive(old(s.inn), p)))
    {
      if s.inn.buffered > c.window {
        AbortCall(s, RECV_OVERFLOW);
        Detach(s.id);
      } else {
        s.PushMsg(p);
        OneChanged(s);
      }
    }

    method HandleEnd(s: StreamImpl, why: Option<Status>, h: Headers)
      requires Valid() && s.id in streams && streams[s.id] == s
      modifies this, all.Values
      ensures Valid() && all == old(all)
      ensures State() == Put(old(State()), s.id,
                             if why.Some? then EndError(old(s.Value()), why.value, h) else EndOk(old(s.Value()), h))
                           .(registered := old(streams.Keys) - {s.id})
    {
      if why.Some? { s.FinishError(why.value, h); } else { s.FinishOk(h); }
      OneChanged(s);
      streams := streams - {s.id};
    }

    // ---- opening ----

    /** An odd id is taken even on a defunct mux, where the stream is failed at birth. */
    method OpenCall(timeout: bool, signal: Signal) returns (s: StreamImpl)
      requires Valid()
      modifies this, all.Values
      ensures Valid() && fresh(s) && s.id == old(nextId) && all == old(all)[s.id := s]
      ensures State() == OpenStream(c, old(State()), timeout, signal)
    {
      if life.closed || life.dead {
        s := FailedStream();
        return;
      }
      s := new StreamImpl(nextId, c.window);
      Register(s);
      Write(OpenF(s.id));
      AttachCall(s, timeout, signal);
    }

    method FailedStream() returns (s: StreamImpl)
      requires Valid()
      modifies this`nextId, this`all
      ensures Valid() && fresh(s) && s.id == old(nextId) && all == old(all)[s.id := s]
      ensures var why := if life.terminal.Some? then life.terminal.value else LOST;
              State() == Filing(old(State()), EndError(New(c.window), why, map[]))
    {
      s := new StreamImpl(nextId, c.window);
      s.FinishError(if life.terminal.Some? then life.terminal.value else LOST, map[]);
      File(s);
    }

    /** The stream takes the next id, whether or not it is registered. */
    method File(s: StreamImpl)
      requires Valid() && s.id == nextId
      modifies this`nextId, this`all
      ensures Valid() && all == old(all)[s.id := s] && State() == Filing(old(State()), s.Value())
    {
      nextId := nextId + 2;
      all := all[s.id := s];
      assert Values(all) == old(Values(all))[s.id := s.Value()];
    }

    method Register(s: StreamImpl)
      requires Valid() && s.id == nextId
      modifies this`nextId, this`all, this`streams
      ensures Valid() && all == old(all)[s.id := s] && State() == Registering(old(State()), s.Value())
    {
      File(s);
      streams := streams[s.id := s];
    }

    method AttachCall(s: StreamImpl, timeout: bool, signal: Signal)
      requires Valid() && s.id in all && all[s.id] == s
      modifies this, all.Values
      ensures Valid() && all == old(all) && State() == Attach(c, old(State()), s.id, timeout, signal)
    {
      if timeout { s.RegisterCallback(); OneChanged(s); }
      label Timed:
      match signal
      case NoSignal =>
      case Pending =>
        s.RegisterCallback();
        OneChanged@Timed(s);
      case Aborted => AbortCall(s, Status(CODE_CANCELLED, "request aborted"));
    }

    /** `held` are the streams callers hold, registered or not, before and after. */
    method Dispatch(e: TsMux.Event, held: map<nat, StreamImpl>) returns (held': map<nat, StreamImpl>)
      requires Valid() && held == all
      modifies this, all.Values
      ensures Valid() && held' == all && State() == TsMux.Step(c, old(State()), e)
      ensures fresh(all.Values - old(all.Values))
    {
      if e.Open? {
        var s := OpenCall(e.timeout, e.signal);
        held' := held[s.id := s];
      } else {
        DispatchHeld(e, held);
        held' := held;
      }
    }

    /** Every event but the opening of a stream. */
    method DispatchHeld(e: TsMux.Event, held: map<nat, StreamImpl>)
      requires Valid() && held == all && !e.Open?
      modifies this, all.Values
      ensures Valid() && all == old(all) && State() == TsMux.Step(c, old(State()), e)
    {
      match e
      case Send(id, p) => if id in held { Send(held[id], p); }
      case HalfClose(id) => if id in held { HalfCloseCall(held[id]); }
      case Cancel(id) => if id in held { CancelCall(held[id]); }
      case Abort(id, why) => if id in held { AbortCall(held[id], why); }
      case Recv(id) => if id in held { BeginRecv(held[id]); }
      case Continue(id) => if id in held && held[id].inn.continuing != [] { var _ := FinishRecv(held[id]); }
      case Hooked(id) => if id in held { held[id].RegisterCallback(); OneChanged(held[id]); }
      case SocketOpen(ok) => OnOpen(ok);
      case SocketDrop => OnTransportDrop();
      case Oversize => Fail(Status(CODE_RESOURCE_EXHAUSTED, "inbound frame exceeds maxFrameBytes"));
      case Inbound(f) => Handle(f);
      case Close(why) => CloseMux(why);
    }

    /** Whole runs: the objects end up where the machine does. */
    method Replay(es: seq<TsMux.Event>, held: map<nat, StreamImpl>) returns (held': map<nat, StreamImpl>)
      requires Valid() && held == all
      modifies this, all.Values
      ensures Valid() && held' == all && State() == TsMux.Run(c, old(State()), es)
      ensures fresh(all.Values - old(all.Values))
    {
      held' := held;
      for i := 0 to |es|
        invariant Valid() && held' == all && fresh(all.Values - old(all.Values))
        invariant TsMux.Run(c, State(), es[i..]) == TsMux.Run(c, old(State()), es)
      {
        assert es[i..][0] == es[i] && es[i..][1..] == es[i + 1..];
        held' := Dispatch(es[i], held');
      }
    }
  }
}
