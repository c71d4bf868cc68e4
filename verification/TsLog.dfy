/** What the client puts on the wire, stream by stream: the order of the frames
    of one stream over whole runs of TsMux. */
module TsLog {
  import opened Frames
  import opened TsStream
  import opened TsMux

  /** The frames of one stream, in order. */
  function FramesOf(fs: seq<Sent>, id: nat): seq<Sent> {
    if fs == [] then []
    else FramesOf(fs[..|fs| - 1], id) + if fs[|fs| - 1].id == id then [fs[|fs| - 1]] else []
  }

  function Payloads(fs: seq<Sent>): seq<Payload> {
    if fs == [] then []
    else Payloads(fs[..|fs| - 1]) + if fs[|fs| - 1].MsgF? then [fs[|fs| - 1].p] else []
  }

  function Resets(fs: seq<Sent>): nat {
    if fs == [] then 0 else Resets(fs[..|fs| - 1]) + if fs[|fs| - 1].RstF? then 1 else 0
  }

  lemma LogSnoc(fs: seq<Sent>, f: Sent, id: nat)
    ensures FramesOf(fs + [f], id) == FramesOf(fs, id) + if f.id == id then [f] else []
    ensures Payloads(fs + [f]) == Payloads(fs) + if f.MsgF? then [f.p] else []
    ensures Resets(fs + [f]) == Resets(fs) + if f.RstF? then 1 else 0
  {
  }

  function Log(x: Mux, id: nat): seq<Sent> { FramesOf(x.wire.written, id) }

  // ---- what an operation on other streams does to stream id ----

  /** Same send side and same frames; a finished stream is not touched at all. */
  ghost predicate Aside(x: Mux, y: Mux, id: nat) {
    Log(y, id) == Log(x, id) &&
    (id in x.streams ==>
      && id in y.streams
      && y.streams[id].out == x.streams[id].out
      && y.streams[id].fate.sendClosed == x.streams[id].fate.sendClosed
      && y.streams[id].fate.resets == x.streams[id].fate.resets
      && (x.streams[id].fate.finished ==> y.streams[id] == x.streams[id]))
  }

  lemma PutAside(x: Mux, k: nat, s: Strm, id: nat)
    requires k != id
    ensures Aside(x, Put(x, k, s), id)
  {
  }

  lemma WriteAside(c: Config, x: Mux, f: Sent, id: nat)
    requires f.id != id
    ensures Aside(x, WriteFrame(c, x, f), id)
  {
  }

  lemma KillAside(x: Mux, why: Status, id: nat)
    ensures Aside(x, Kill(x, why), id)
  {
  }

  lemma {:induction false} PumpAside(c: Config, x: Mux, k: nat, id: nat)
    requires k != id && k in x.streams
    ensures Aside(x, Pump(c, x, k), id)
    decreases |x.streams[k].out.queue|
  {
    if CanPump(x.streams[k]) {
      var s := x.streams[k];
      var y := Put(x, k, s.(out := Shift(s.out)));
      PutAside(x, k, s.(out := Shift(s.out)), id);
      WriteAside(c, y, MsgF(k, s.out.queue[0]), id);
      WriteKeepsOut(c, y, MsgF(k, s.out.queue[0]));
      PumpAside(c, PumpOne(c, x, k), k, id);
    }
  }

  lemma ResetHookAside(c: Config, x: Mux, k: nat, id: nat)
    requires k != id && k in x.streams
    ensures Aside(x, ResetHook(c, x, k), id)
  {
  }

  lemma AbortAside(c: Config, x: Mux, k: nat, why: Status, id: nat)
    requires k != id && k in x.streams
    ensures Aside(x, AbortStream(c, x, k, why), id)
    ensures Aside(x, CancelStream(c, x, k), id)
  {
    ResetHookAside(c, x, k, id);
  }

  lemma SendAside(c: Config, x: Mux, k: nat, p: Payload, id: nat)
    requires k != id && k in x.streams
    ensures Aside(x, SendMsg(c, x, k, p), id)
  {
    var s := x.streams[k];
    AbortAside(c, x, k, SEND_OVERFLOW, id);
    PumpAside(c, Put(x, k, s.(out := Accept(s.out, p))), k, id);
  }

  lemma CreditAside(c: Config, x: Mux, k: nat, delta: int, id: nat)
    requires k != id && k in x.streams
    ensures Aside(x, CreditStream(c, x, k, delta), id)
  {
    PumpAside(c, Put(x, k, x.streams[k].(out := Grant(x.streams[k].out, delta))), k, id);
  }

  lemma CloseSendAside(c: Config, x: Mux, k: nat, id: nat)
    requires k != id && k in x.streams
    ensures Aside(x, CloseSend(c, x, k), id)
  {
  }

  lemma ResumeAside(c: Config, x: Mux, k: nat, id: nat)
    requires k != id && CanResume(x, k)
    ensures Aside(x, ResumeRecv(c, x, k), id)
  {
  }

  lemma FrameAside(c: Config, x: Mux, f: Frame, id: nat)
    requires f.id != id
    ensures Aside(x, HandleFrame(c, x, f), id)
  {
    if f.id in x.registered && f.id in x.streams {
      if f.WindowUpdate? { CreditAside(c, x, f.id, f.window, id); }
      if f.Msg? { AbortAside(c, x, f.id, RECV_OVERFLOW, id); }
    }
  }

  lemma AttachAside(c: Config, x: Mux, k: nat, timeout: bool, signal: Signal, id: nat)
    requires k != id && k in x.streams
    ensures Aside(x, Attach(c, x, k, timeout, signal), id)
  {
    var y := if timeout then Hook(x, k) else x;
    AbortAside(c, y, k, Status(CODE_CANCELLED, "request aborted"), id);
  }

  lemma OpenAside(c: Config, x: Mux, timeout: bool, signal: Signal, id: nat)
    requires id != x.nextId
    ensures Aside(x, OpenStream(c, x, timeout, signal), id)
  {
    if !Defunct(x) {
      var y := Registering(x, New(c.window));
      WriteAside(c, y, OpenF(x.nextId), id);
      AttachAside(c, WriteFrame(c, y, OpenF(x.nextId)), x.nextId, timeout, signal, id);
    }
  }

  /** The stream an event names, if it names one. */
  predicate Names(e: Event, id: nat) {
    match e
    case Send(k, _) => k == id
    case HalfClose(k) => k == id
    case Cancel(k) => k == id
    case Abort(k, _) => k == id
    case Recv(k) => k == id
    case Continue(k) => k == id
    case Hooked(k) => k == id
    case Inbound(f) => f.id == id
    case _ => false
  }

  lemma StepAside(c: Config, x: Mux, e: Event, id: nat)
    requires !Names(e, id) && (e.Open? ==> id != x.nextId)
    ensures Aside(x, Step(c, x, e), id)
  {
    match e
    case Open(timeout, signal) => OpenAside(c, x, timeout, signal, id);
    case Send(k, p) => if k in x.streams { SendAside(c, x, k, p, id); }
    case HalfClose(k) => if k in x.streams { CloseSendAside(c, x, k, id); }
    case Cancel(k) => if k in x.streams { AbortAside(c, x, k, LOST, id); }
    case Abort(k, why) => if k in x.streams { AbortAside(c, x, k, why, id); }
    case Recv(_) =>
    case Continue(k) => if CanResume(x, k) { ResumeAside(c, x, k, id); }
    case Hooked(_) =>
    case SocketOpen(_) =>
      KillAside(x.(life := Notified(x.life.(closed := true))),
                Status(CODE_UNAVAILABLE, "server did not negotiate subprotocol"), id);
    case SocketDrop => KillAside(x.(life := Notified(x.life.(dead := true))), LOST, id);
    case Oversize =>
      KillAside(x.(life := Notified(x.life.(closed := true))),
                Status(CODE_RESOURCE_EXHAUSTED, "inbound frame exceeds maxFrameBytes"), id);
    case Inbound(f) => FrameAside(c, x, f, id);
    case Close(why) => KillAside(x.(life := x.life.(closed := true, owned := false)), why, id);
  }

  // ---- what every operation does ----

  /** Defunct for good, and the log only grows. */
  ghost predicate Later(x: Mux, y: Mux) { (Defunct(x) ==> Defunct(y)) && x.wire.written <= y.wire.written }

  /** ... with the same streams. */
  ghost predicate Onward(x: Mux, y: Mux) { Later(x, y) && y.nextId == x.nextId && y.streams.Keys == x.streams.Keys }

  lemma WriteLater(c: Config, x: Mux, f: Sent)
    ensures Onward(x, WriteFrame(c, x, f))
  {
  }

  lemma {:induction false} PumpLater(c: Config, x: Mux, id: nat)
    requires id in x.streams
    ensures Onward(x, Pump(c, x, id))
    decreases |x.streams[id].out.queue|
  {
    if CanPump(x.streams[id]) {
      var s := x.streams[id];
      var y := Put(x, id, s.(out := Shift(s.out)));
      WriteLater(c, y, MsgF(id, s.out.queue[0]));
      WriteKeepsOut(c, y, MsgF(id, s.out.queue[0]));
      PumpLater(c, PumpOne(c, x, id), id);
    }
  }

  lemma AbortLater(c: Config, x: Mux, id: nat, why: Status)
    requires id in x.streams
    ensures Onward(x, AbortStream(c, x, id, why)) && Onward(x, CancelStream(c, x, id))
  {
  }

  lemma SendLater(c: Config, x: Mux, id: nat, p: Payload)
    requires id in x.streams
    ensures Onward(x, SendMsg(c, x, id, p))
  {
    var s := x.streams[id];
    AbortLater(c, x, id, SEND_OVERFLOW);
    PumpLater(c, Put(x, id, s.(out := Accept(s.out, p))), id);
  }

  lemma CloseSendLater(c: Config, x: Mux, id: nat)
    requires id in x.streams
    ensures Onward(x, CloseSend(c, x, id))
  {
  }

  lemma FrameLater(c: Config, x: Mux, f: Frame)
    ensures Onward(x, HandleFrame(c, x, f))
  {
    if f.id in x.registered && f.id in x.streams {
      if f.WindowUpdate? {
        PumpLater(c, Put(x, f.id, x.streams[f.id].(out := Grant(x.streams[f.id].out, f.window))), f.id);
      }
      if f.Msg? { AbortLater(c, x, f.id, RECV_OVERFLOW); }
    }
  }

  lemma ResumeLater(c: Config, x: Mux, id: nat)
    requires CanResume(x, id)
    ensures Onward(x, ResumeRecv(c, x, id))
  {
  }

  lemma AttachLater(c: Config, x: Mux, id: nat, timeout: bool, signal: Signal)
    requires id in x.streams
    ensures Onward(x, Attach(c, x, id, timeout, signal))
  {
  }

  lemma OpenLater(c: Config, x: Mux, timeout: bool, signal: Signal)
    ensures var y := OpenStream(c, x, timeout, signal);
            Later(x, y) && y.nextId == x.nextId + 2 && y.streams.Keys == x.streams.Keys + {x.nextId}
  {
    if !Defunct(x) {
      var y := Registering(x, New(c.window));
      WriteLater(c, y, OpenF(x.nextId));
      AttachLater(c, WriteFrame(c, y, OpenF(x.nextId)), x.nextId, timeout, signal);
    }
  }

  lemma StepLater(c: Config, x: Mux, e: Event)
    ensures Later(x, Step(c, x, e))
    ensures var y := Step(c, x, e);
            if e.Open? then y.nextId == x.nextId + 2 && y.streams.Keys == x.streams.Keys + {x.nextId} else Onward(x, y)
  {
    match e
    case Open(timeout, signal) => OpenLater(c, x, timeout, signal);
    case Send(id, p) => if id in x.streams { SendLater(c, x, id, p); }
    case HalfClose(id) => if id in x.streams { CloseSendLater(c, x, id); }
    case Cancel(id) => if id in x.streams { AbortLater(c, x, id, LOST); }
    case Abort(id, why) => if id in x.streams { AbortLater(c, x, id, why); }
    case Recv(_) =>
    case Continue(id) => if CanResume(x, id) { ResumeLater(c, x, id); }
    case Hooked(_) =>
    case SocketOpen(_) =>
    case SocketDrop =>
    case Oversize =>
    case Inbound(f) => FrameLater(c, x, f);
    case Close(_) =>
  }

  // ---- the log agrees with the streams ----

  /** MSG frames on the log are the payloads the pump handed on, and each reset
      hook call wrote at most one RST. */
  ghost predicate LogOk(x: Mux, id: nat) {
    id in x.streams ==>
      && Payloads(Log(x, id)) <= x.streams[id].out.handed
      && (!Defunct(x) ==> Payloads(Log(x, id)) == x.streams[id].out.handed)
      && Resets(Log(x, id)) <= x.streams[id].fate.resets
  }

  lemma AsideKeepsLog(x: Mux, y: Mux, id: nat)
    requires Aside(x, y, id) && Later(x, y) && LogOk(x, id) && id in x.streams
    ensures LogOk(y, id)
  {
  }

  lemma PumpOneLog(c: Config, x: Mux, id: nat)
    requires LogOk(x, id) && id in x.streams && x.streams[id].out.queue != []
    ensures LogOk(PumpOne(c, x, id), id)
  {
    var f := MsgF(id, x.streams[id].out.queue[0]);
    LogSnoc(x.wire.written, f, id);
    LogSnoc(Log(x, id), f, id);
  }

  lemma {:induction false} PumpLog(c: Config, x: Mux, id: nat)
    requires LogOk(x, id) && id in x.streams
    ensures LogOk(Pump(c, x, id), id)
    decreases |x.streams[id].out.queue|
  {
    if CanPump(x.streams[id]) {
      var s := x.streams[id];
      PumpOneLog(c, x, id);
      WriteKeepsOut(c, Put(x, id, s.(out := Shift(s.out))), MsgF(id, s.out.queue[0]));
      PumpLog(c, PumpOne(c, x, id), id);
    }
  }

  /** A frame that is neither MSG nor RST leaves the tallies alone. */
  lemma WriteLog(c: Config, x: Mux, f: Sent, id: nat)
    requires LogOk(x, id) && f.id == id && !f.MsgF? && !f.RstF?
    ensures LogOk(WriteFrame(c, x, f), id)
  {
    LogSnoc(x.wire.written, f, id);
    LogSnoc(Log(x, id), f, id);
  }

  lemma ResetHookLog(c: Config, x: Mux, id: nat)
    requires LogOk(x, id) && id in x.streams
    ensures LogOk(ResetHook(c, x, id), id)
  {
  }

  lemma AbortLog(c: Config, x: Mux, id: nat, why: Status)
    requires LogOk(x, id) && id in x.streams
    ensures LogOk(AbortStream(c, x, id, why), id) && LogOk(CancelStream(c, x, id), id)
  {
    ResetHookLog(c, x, id);
  }

  lemma FrameLog(c: Config, x: Mux, f: Frame)
    requires LogOk(x, f.id) && f.id in x.streams
    ensures LogOk(HandleFrame(c, x, f), f.id)
  {
    if f.id in x.registered {
      if f.WindowUpdate? && f.window > 0 {
        PumpLog(c, Put(x, f.id, x.streams[f.id].(out := Grant(x.streams[f.id].out, f.window))), f.id);
      }
      if f.Msg? { AbortLog(c, x, f.id, RECV_OVERFLOW); }
    }
  }

  lemma SendLog(c: Config, x: Mux, id: nat, p: Payload)
    requires LogOk(x, id) && id in x.streams
    ensures LogOk(SendMsg(c, x, id, p), id)
  {
    AbortLog(c, x, id, SEND_OVERFLOW);
    PumpLog(c, Put(x, id, x.streams[id].(out := Accept(x.streams[id].out, p))), id);
  }

  lemma CloseSendLog(c: Config, x: Mux, id: nat)
    requires LogOk(x, id) && id in x.streams
    ensures LogOk(CloseSend(c, x, id), id)
  {
    var s := x.streams[id];
    WriteLog(c, Put(x, id, s.(fate := s.fate.(sendClosed := true))), HalfCloseF(id), id);
  }

  lemma ResumeLog(c: Config, x: Mux, id: nat)
    requires LogOk(x, id) && CanResume(x, id)
    ensures LogOk(ResumeRecv(c, x, id), id)
  {
    WriteLog(c, Resumed(c, x, id), WindowF(id, CreditDue(c, x.streams[id])), id);
  }

  lemma OpenLog(c: Config, x: Mux, timeout: bool, signal: Signal)
    requires Log(x, x.nextId) == []
    ensures LogOk(OpenStream(c, x, timeout, signal), x.nextId)
  {
    if !Defunct(x) {
      var (id, y) := (x.nextId, Registering(x, New(c.window)));
      WriteLog(c, y, OpenF(id), id);
      AttachLog(c, WriteFrame(c, y, OpenF(id)), id, timeout, signal);
    }
  }

  lemma AttachLog(c: Config, z: Mux, id: nat, timeout: bool, signal: Signal)
    requires id in z.streams && LogOk(z, id)
    ensures LogOk(Attach(c, z, id, timeout, signal), id)
  {
    if signal.Aborted? {
      AbortLog(c, if timeout then Hook(z, id) else z, id, Status(CODE_CANCELLED, "request aborted"));
    }
  }

  lemma NamedLog(c: Config, x: Mux, e: Event, id: nat)
    requires LogOk(x, id) && id in x.streams && Names(e, id)
    ensures LogOk(Step(c, x, e), id)
  {
    match e
    case Send(_, p) => SendLog(c, x, id, p);
    case HalfClose(_) => CloseSendLog(c, x, id);
    case Cancel(_) => AbortLog(c, x, id, LOST);
    case Abort(_, why) => AbortLog(c, x, id, why);
    case Recv(_) =>
    case Continue(_) => if CanResume(x, id) { ResumeLog(c, x, id); }
    case Hooked(_) =>
    case Inbound(f) => FrameLog(c, x, f);
  }

  /** Every stream's log agrees with it, and ids not handed out yet have no frames. */
  ghost predicate LogsOk(x: Mux) {
    && (forall id :: LogOk(x, id))
    && (forall id :: id >= x.nextId ==> Log(x, id) == [] && id !in x.streams)
  }

  lemma NamelessKeeps(c: Config, x: Mux, e: Event, id: nat)
    requires id !in x.streams && Names(e, id)
    requires x.registered <= x.streams.Keys
    ensures Step(c, x, e) == x
  {
  }

  lemma StepKeepsLogs(c: Config, x: Mux, e: Event)
    requires LogsOk(x) && x.registered <= x.streams.Keys
    ensures LogsOk(Step(c, x, e))
  {
    var y := Step(c, x, e);
    StepLater(c, x, e);
    forall id ensures LogOk(y, id) {
      if id in y.streams {
        if Names(e, id) {
          if id in x.streams { NamedLog(c, x, e, id); } else { NamelessKeeps(c, x, e, id); }
        } else if e.Open? && id == x.nextId {
          OpenLog(c, x, e.timeout, e.signal);
        } else {
          StepAside(c, x, e, id);
          if id in x.streams { AsideKeepsLog(x, y, id); }
        }
      }
    }
    forall id | id >= y.nextId ensures Log(y, id) == [] {
      if Names(e, id) { NamelessKeeps(c, x, e, id); } else { StepAside(c, x, e, id); }
    }
  }

  lemma {:induction false} RunKeepsLogs(c: Config, x: Mux, es: seq<Event>, m: nat)
    requires LogsOk(x) && MuxOk(c, x, m) && Normal(c) && forall i :: 0 <= i < |es| ==> EventWithin(es[i], m)
    ensures LogsOk(Run(c, x, es))
    decreases |es|
  {
    if es != [] {
      StepKeepsLogs(c, x, es[0]);
      StepKeeps(c, x, es[0], m);
      RunKeepsLogs(c, Step(c, x, es[0]), es[1..], m);
    }
  }

  lemma ReachedLogs(c: Config, es: seq<Event>, x: Mux)
    requires Reaches(c, es, x)
    ensures LogsOk(x) && MuxOk(c, x, Largest(es))
  {
    ReachedOk(c, es, x);
    InitKeeps(c, Largest(es));
    LargestBounds(es, Largest(es));
    RunKeepsLogs(c, Init(), es, Largest(es));
  }

  /** Over every event sequence: the MSG frames of a stream on the wire, followed by
      what still waits for credit, are the sends it accepted, in order; a lost
      connection cuts that short but reorders nothing; at most one RST is written. */
  lemma MessagesOnTheWire(c: Config, es: seq<Event>, x: Mux, id: nat)
    requires Reaches(c, es, x) && id in x.streams
    ensures Payloads(Log(x, id)) <= x.streams[id].out.accepted
    ensures !Defunct(x) ==> Payloads(Log(x, id)) + x.streams[id].out.queue == x.streams[id].out.accepted
    ensures Resets(Log(x, id)) <= 1
  {
    ReachedLogs(c, es, x);
    assert Fine(c, x.streams[id], Largest(es)) && LogOk(x, id);
  }

  // ---- a finished stream stays as it ended ----

  /** What the first terminal decided, and the frames written. */
  ghost predicate SameVerdict(x: Mux, y: Mux, id: nat)
    requires id in x.streams
  {
    && id in y.streams && y.streams[id].fate.finished && Log(y, id) == Log(x, id)
    && y.streams[id].fate.trailers == x.streams[id].fate.trailers
    && y.streams[id].fate.leading == x.streams[id].fate.leading
    && y.streams[id].inn.queue.ended == x.streams[id].inn.queue.ended
    && y.streams[id].inn.queue.error == x.streams[id].inn.queue.error
  }

  lemma FinishedStep(c: Config, x: Mux, e: Event, id: nat)
    requires RegOk(x) && id in x.streams && x.streams[id].fate.finished && FateOk(x.streams[id].fate)
    ensures SameVerdict(x, Step(c, x, e), id)
  {
    if !Names(e, id) { StepAside(c, x, e, id); }
  }

  /** Whatever happens afterwards, the outcome stands and nothing more is written. */
  lemma {:induction false} FinishedIsFinal(c: Config, x: Mux, es: seq<Event>, id: nat, m: nat)
    requires MuxOk(c, x, m) && Normal(c) && forall i :: 0 <= i < |es| ==> EventWithin(es[i], m)
    requires id in x.streams && x.streams[id].fate.finished
    ensures SameVerdict(x, Run(c, x, es), id)
    decreases |es|
  {
    if es != [] {
      assert Fine(c, x.streams[id], m);
      FinishedStep(c, x, es[0], id);
      StepKeeps(c, x, es[0], m);
      FinishedIsFinal(c, Step(c, x, es[0]), es[1..], id, m);
    }
  }

  // ---- half-close order ----

  /** The send side is closed with nothing left to pump. */
  ghost predicate ClosedDry(x: Mux, id: nat) {
    id in x.streams && x.streams[id].fate.sendClosed && x.streams[id].out.queue == []
  }

  lemma ClosedDryStep(c: Config, x: Mux, e: Event, id: nat)
    requires ClosedDry(x, id) && id < x.nextId
    ensures ClosedDry(Step(c, x, e), id)
    ensures Step(c, x, e).streams[id].out.handed == x.streams[id].out.handed
  {
    if Names(e, id) {
      match e
      case Inbound(f) => ClosedDryFrame(c, x, f);
      case Cancel(_) => ClosedDryReset(c, x, id);
      case Abort(_, _) => ClosedDryReset(c, x, id);
      case Continue(_) =>
        if CanResume(x, id) { WriteKeepsOut(c, Resumed(c, x, id), WindowF(id, CreditDue(c, x.streams[id]))); }
      case _ =>
    } else {
      StepAside(c, x, e, id);
    }
  }

  lemma ClosedDryReset(c: Config, x: Mux, id: nat)
    requires ClosedDry(x, id)
    ensures forall why ::
      (ClosedDry(AbortStream(c, x, id, why), id) && AbortStream(c, x, id, why).streams[id].out == x.streams[id].out)
    ensures ClosedDry(CancelStream(c, x, id), id) && CancelStream(c, x, id).streams[id].out == x.streams[id].out
  {
  }

  lemma ClosedDryFrame(c: Config, x: Mux, f: Frame)
    requires ClosedDry(x, f.id)
    ensures ClosedDry(HandleFrame(c, x, f), f.id)
    ensures HandleFrame(c, x, f).streams[f.id].out.handed == x.streams[f.id].out.handed
  {
  }

  lemma {:induction false} ClosedDryRun(c: Config, x: Mux, es: seq<Event>, id: nat)
    requires ClosedDry(x, id) && id < x.nextId
    ensures ClosedDry(Run(c, x, es), id) && Later(x, Run(c, x, es))
    ensures Run(c, x, es).streams[id].out.handed == x.streams[id].out.handed
    decreases |es|
  {
    if es != [] {
      ClosedDryStep(c, x, es[0], id);
      StepLater(c, x, es[0]);
      ClosedDryRun(c, Step(c, x, es[0]), es[1..], id);
    }
  }

  /** Growing the log grows each stream's part of it. */
  lemma {:induction false} LogGrows(a: seq<Sent>, b: seq<Sent>, id: nat)
    requires a <= b
    ensures FramesOf(a, id) <= FramesOf(b, id)
    decreases |b|
  {
    if |a| < |b| { LogGrows(a, b[..|b| - 1], id); } else { assert a == b; }
  }

  lemma {:induction false} PayloadsGrow(a: seq<Sent>, b: seq<Sent>)
    requires a <= b
    ensures Payloads(a) <= Payloads(b)
    decreases |b|
  {
    if |a| < |b| { PayloadsGrow(a, b[..|b| - 1]); } else { assert a == b; }
  }

  /** Closed with nothing queued: no MSG is ever written again. */
  lemma NothingAfterDryClose(c: Config, y: Mux, es: seq<Event>, id: nat, m: nat)
    requires MuxOk(c, y, m) && LogsOk(y) && Normal(c) && ClosedDry(y, id) && !Defunct(y)
    ensures Payloads(Log(Run(c, y, es), id)) == Payloads(Log(y, id))
  {
    var z := Run(c, y, es);
    var n := if m > Largest(es) then m else Largest(es);
    ClosedDryRun(c, y, es, id);
    assert MuxOk(c, y, n) by { MuxOkWeakens(c, y, m, n); }
    LargestBounds(es, n);
    RunKeepsLogs(c, y, es, n);
    assert LogOk(z, id) && LogOk(y, id);
    LogGrows(y.wire.written, z.wire.written, id);
    PayloadsGrow(Log(y, id), Log(z, id));
  }

  lemma MuxOkWeakens(c: Config, x: Mux, m: nat, n: nat)
    requires MuxOk(c, x, m) && m <= n
    ensures MuxOk(c, x, n)
  {
  }

  /** A pump with something to send on an open mux hands it on, and stays open. */
  lemma {:induction false} PumpHands(c: Config, x: Mux, id: nat)
    requires id in x.streams && x.life.isOpen && !Defunct(x)
    ensures Pump(c, x, id).life == x.life && id in Pump(c, x, id).streams
    ensures |Pump(c, x, id).streams[id].out.handed|
            >= |x.streams[id].out.handed| + if CanPump(x.streams[id]) then 1 else 0
    decreases |x.streams[id].out.queue|
  {
    if CanPump(x.streams[id]) {
      var s := x.streams[id];
      WriteKeepsOut(c, Put(x, id, s.(out := Shift(s.out))), MsgF(id, s.out.queue[0]));
      PumpHands(c, PumpOne(c, x, id), id);
    }
  }

  /** Enough WINDOW_UPDATEs make an open mux hand on another payload. */
  lemma {:induction false} CreditHands(c: Config, x: Mux, id: nat) returns (es: seq<Event>)
    requires id < UINT32_RANGE && id in x.streams && id in x.registered && !x.streams[id].fate.finished
    requires x.life.isOpen && !Defunct(x) && x.streams[id].out.queue != [] && x.streams[id].out.window <= 0
    ensures var y := Run(c, x, es);
            id in y.streams && !Defunct(y) && |y.streams[id].out.handed| > |x.streams[id].out.handed|
    decreases -x.streams[id].out.window
  {
    var e := Inbound(WindowUpdate(id, 1));
    var granted := Put(x, id, x.streams[id].(out := Grant(x.streams[id].out, 1)));
    var y := Step(c, x, e);
    assert y == Pump(c, granted, id);
    if granted.streams[id].out.window > 0 {
      PumpHands(c, granted, id);
      PumpLater(c, granted, id);
      es := [e];
      assert Run(c, x, es) == Run(c, y, es[1..]) == y;
    } else {
      assert y == granted;
      var rest := CreditHands(c, granted, id);
      es := [e] + rest;
      assert es[1..] == rest;
    }
  }

  /** When the send side is closed with payloads still waiting for credit, a MSG
      can follow the HALF_CLOSE on the wire. */
  lemma MsgAfterHalfClose(c: Config, y: Mux, id: nat, m: nat) returns (es: seq<Event>)
    requires MuxOk(c, y, m) && LogsOk(y) && Normal(c) && !Defunct(y) && id < UINT32_RANGE
    requires id in y.streams && !y.streams[id].fate.finished && y.streams[id].out.queue != []
    ensures Payloads(Log(Run(c, y, es), id)) != Payloads(Log(y, id))
  {
    var z := Flush(y);
    assert Step(c, y, SocketOpen(true)) == z;
    FlushKeeps(c, y, m);
    assert Pumped(y.streams[id]);
    var rest := CreditHands(c, z, id);
    es := [SocketOpen(true)] + rest;
    assert es[1..] == rest;
    var n := if m > Largest(es) then m else Largest(es);
    MuxOkWeakens(c, y, m, n);
    LargestBounds(es, n);
    RunKeepsLogs(c, y, es, n);
    assert LogOk(Run(c, y, es), id) && LogOk(y, id);
  }

  /** closeSend writes HALF_CLOSE; every MSG of the stream precedes it on the wire, in
      every continuation, if and only if nothing was waiting for credit. */
  lemma HalfCloseLastIff(c: Config, es: seq<Event>, x: Mux, id: nat)
    requires Reaches(c, es, x) && id in x.streams && id < UINT32_RANGE
    requires !x.streams[id].fate.sendClosed && !x.streams[id].fate.finished
    requires !Overfull(c, x, HalfCloseF(id))
    ensures var y := CloseSend(c, x, id);
            && Log(y, id) == Log(x, id) + [HalfCloseF(id)]
            && ((forall rest :: Payloads(Log(Run(c, y, rest), id)) == Payloads(Log(y, id)))
                <==> x.streams[id].out.queue == [])
  {
    ReachedLogs(c, es, x);
    var m := Largest(es);
    var y := CloseSend(c, x, id);
    UnfinishedIsLive(c, x, id);
    CloseSendKeeps(c, x, id, m);
    StepKeepsLogs(c, x, Event.HalfClose(id));
    LogSnoc(x.wire.written, HalfCloseF(id), id);
    if x.streams[id].out.queue == [] {
      forall rest ensures Payloads(Log(Run(c, y, rest), id)) == Payloads(Log(y, id)) {
        NothingAfterDryClose(c, y, rest, id, m);
      }
    } else {
      var rest := MsgAfterHalfClose(c, y, id, m);
    }
  }

  /** The failing side is reached: two single bytes on a window of one leave the second
      waiting when the caller closes its send side. */
  lemma WaitingCloseHappens() returns (c: Config, es: seq<Event>, x: Mux)
    ensures Reaches(c, es, x) && 1 in x.streams && x.streams[1].out.queue != []
    ensures !x.streams[1].fate.sendClosed && !x.streams[1].fate.finished && !Overfull(c, x, HalfCloseF(1))
    ensures exists rest :: Payloads(Log(Run(c, CloseSend(c, x, 1), rest), 1)) != Payloads(Log(CloseSend(c, x, 1), 1))
  {
    c := Config(1, 1, _ => 0);
    var a := Step(c, Init(), TsMux.Event.Open(false, NoSignal));
    var b := Step(c, a, Send(1, [0]));
    OneByteSent(c, a);
    x := Step(c, b, Send(1, [0]));
    es := [TsMux.Event.Open(false, NoSignal), Send(1, [0]), Send(1, [0])];
    assert es[1..] == [Send(1, [0]), Send(1, [0])] && es[1..][1..] == [Send(1, [0])] && es[1..][1..][1..] == [];
    assert Run(c, b, es[1..][1..]) == Run(c, x, []) == x;
    assert Run(c, a, es[1..]) == x;
    HalfCloseLastIff(c, es, x, 1);
  }

  /** The pump hands the only waiting byte on, and the window is used up. */
  lemma OneByteSent(c: Config, a: Mux)
    requires 1 in a.streams && !Defunct(a) && a.wire.bytes == 0 && c.size(MsgF(1, [0])) == 0 && c.maxSendBuffer == 1
    requires a.streams[1].out == Out(1, [], 0, [], []) && !a.streams[1].fate.sendClosed && !a.streams[1].fate.finished
    ensures var b := Step(c, a, Send(1, [0]));
            && 1 in b.streams && !Defunct(b) && b.wire.bytes == 0 && b.life == a.life
            && b.streams[1].out.window == 0 && b.streams[1].out.queue == [] && b.streams[1].out.bytes == 0
            && b.streams[1].fate == a.streams[1].fate
  {
    var s := a.streams[1];
    var y := Put(a, 1, s.(out := Accept(s.out, [0])));
    assert y.streams[1].out.queue == [[0]];
    assert Pump(c, y, 1) == Pump(c, PumpOne(c, y, 1), 1) == PumpOne(c, y, 1);
  }
}
