/** Demultiplexing in the Go runtime (wsrpc/mux.go): one registry, many
    streams. The class `Mux` routes to Stream objects on the heap; the value
    machine below it is used to reason about whole interleaved runs. */
module GoMux {
  import opened Frames
  import opened GoStream

  // ---- what one frame does to the stream it names ----

  predicate IsMessage(f: Frame) { f.Msg? || f.Other? }

  /** Route for a registered stream. Any kind that is not listed is a message. */
  function RouteStream(server: bool, s: StreamState, f: Frame): StreamState {
    match f
    case HalfClose(_) => CloseInbound(s)
    case Header(_, h) => s.(header := if server then s.header else h)
    case WindowUpdate(_, w) => CreditSend(s, w)
    case End(_, _, _) => SignalEnd(s, f)
    case Rst(_, _, _) => SignalEnd(s, f)
    case Msg(_, p) => if Overflows(s) then FailWith(s, OVERFLOW) else TryDeliver(s, p)
    case Other(_, p) => if Overflows(s) then FailWith(s, OVERFLOW) else TryDeliver(s, p)
    case Open(_, _, _) => s
  }

  /** Whether the frame also takes the stream out of the registry. */
  predicate Detaches(s: StreamState, f: Frame) {
    f.End? || f.Rst? || (IsMessage(f) && Overflows(s))
  }

  const CTRL_BUFFER := 256

  /** writeCtrl never blocks: a full buffer drops the frame. */
  function Posted(ctrl: seq<Frame>, f: Frame): seq<Frame> {
    if |ctrl| < CTRL_BUFFER then ctrl + [f] else ctrl
  }

  function Reset(id: Uint32, code: int, why: string): Frame { Rst(id, Some(Status(code, why)), None) }

  function OverflowReset(id: Uint32): Frame { Reset(id, CODE_RESOURCE_EXHAUSTED, "receive buffer overflow") }

  const CODE_INTERNAL := 13

  /** The registry over heap objects. */
  class Mux {
    const server: bool
    const window: int
    const maxStreams: int
    var streams: map<Uint32, Stream>
    var ctrl: seq<Frame>           // RSTs handed to the control writer

    /** Streams are filed under their own id. */
    ghost predicate Valid()
      reads this
    {
      forall id :: id in streams ==> streams[id].id == id
    }

    constructor (server: bool, window: int, maxStreams: int)
      ensures Valid() && streams == map[] && ctrl == []
      ensures this.server == server && this.window == window && this.maxStreams == maxStreams
    {
      this.server, this.window, this.maxStreams := server, window, maxStreams;
      streams, ctrl := map[], [];
    }

    /** mux.route for every frame but OPEN: the named stream alone changes. */
    method Route(f: Frame)
      requires Valid() && !f.Open?
      modifies this`streams, this`ctrl, if f.id in streams then {streams[f.id]} else {}
      ensures Valid()
      ensures f.id !in old(streams) ==> streams == old(streams) && ctrl == old(ctrl)
      ensures f.id in old(streams) ==>
        && old(streams)[f.id].State() == RouteStream(server, old(streams[f.id].State()), f)
        && streams == (if Detaches(old(streams[f.id].State()), f) then old(streams) - {f.id} else old(streams))
        && ctrl == (if IsMessage(f) && Overflows(old(streams[f.id].State())) then Posted(old(ctrl), OverflowReset(f.id))
                    else old(ctrl))
      ensures forall id :: id in old(streams) && id != f.id ==>
        old(streams)[id].State() == old(streams[id].State())
    {
      if f.id !in streams { return; }
      var s := streams[f.id];
      match f
      case HalfClose(_) => s.PeerHalfClosed();
      case Header(_, h) => if !server { s.header := h; }
      case WindowUpdate(_, w) => s.AddCredit(w);
      case End(_, _, _) => s.Signal(f); streams := streams - {f.id};
      case Rst(_, _, _) => s.Signal(f); streams := streams - {f.id};
      case Msg(_, p) => Deliver(s, p);
      case Other(_, p) => Deliver(s, p);
    }

    /** The KIND_MSG branch: enqueue, or reset this one stream. */
    method Deliver(s: Stream, p: Payload)
      requires Valid() && s.id in streams && streams[s.id] == s
      modifies this`streams, this`ctrl, s
      ensures Valid()
      ensures s.State() == if Overflows(old(s.State())) then FailWith(old(s.State()), OVERFLOW)
                           else TryDeliver(old(s.State()), p)
      ensures streams == if Overflows(old(s.State())) then old(streams) - {s.id} else old(streams)
      ensures ctrl == if Overflows(old(s.State())) then Posted(old(ctrl), OverflowReset(s.id)) else old(ctrl)
    {
      var ok := s.Deliver(p);
      if !ok {
        s.Fail(OVERFLOW);
        WriteCtrl(OverflowReset(s.id));
        streams := streams - {s.id};
      }
    }

    method WriteCtrl(f: Frame)
      modifies this`ctrl
      ensures ctrl == Posted(old(ctrl), f)
    {
      if |ctrl| < CTRL_BUFFER { ctrl := ctrl + [f]; }
    }

    /** mux.route for OPEN, run without a concurrent remove: a live id is never
        replaced, and the registry never grows past the cap. */
    method RouteOpen(f: Frame) returns (created: Option<Stream>)
      requires Valid() && f.Open?
      modifies this`streams, this`ctrl
      ensures Valid()
      ensures created.Some? <==> server && f.id !in old(streams) && (maxStreams > 0 ==> |old(streams)| < maxStreams)
      ensures created.Some? ==>
        && fresh(created.value)
        && created.value.State() == NewStream(f.id, window, f.headers)
        && streams == old(streams)[f.id := created.value] && ctrl == old(ctrl)
      ensures created.None? ==> streams == old(streams)
      ensures created.None? && server ==>
        ctrl == Posted(old(ctrl), if f.id in old(streams) then Reset(f.id, CODE_INTERNAL, "duplicate stream id")
                                  else Reset(f.id, CODE_RESOURCE_EXHAUSTED, "max concurrent streams exceeded"))
      ensures created.None? && !server ==> ctrl == old(ctrl)
      ensures maxStreams > 0 && |old(streams)| <= maxStreams ==> |streams| <= maxStreams
    {
      if !server { return None; }
      if f.id in streams {
        WriteCtrl(Reset(f.id, CODE_INTERNAL, "duplicate stream id"));
        return None;
      }
      if maxStreams > 0 && |streams| >= maxStreams {
        WriteCtrl(Reset(f.id, CODE_RESOURCE_EXHAUSTED, "max concurrent streams exceeded"));
        return None;
      }
      var s := new Stream(f.id, window, f.headers);
      assert streams[f.id := s].Keys == streams.Keys + {f.id};
      streams := streams[f.id := s];
      return Some(s);
    }

    /** newClientStream: the stream is registered before its OPEN is written. */
    method OpenLocal(id: Uint32) returns (s: Stream)
      requires Valid()
      modifies this`streams
      ensures Valid() && fresh(s) && s.State() == NewStream(id, window, map[]) && streams == old(streams)[id := s]
    {
      s := new Stream(id, window, map[]);
      streams := streams[id := s];
    }

    method Remove(id: Uint32)
      requires Valid()
      modifies this`streams
      ensures Valid() && streams == old(streams) - {id}
    {
      streams := streams - {id};
    }

    /** The streams of `all` that left the registry have failed, the others are as before. */
    ghost predicate FailedSoFar(all: map<Uint32, Stream>, before: map<Uint32, StreamState>, why: Status)
      reads this, all.Values
    {
      && streams.Keys <= all.Keys == before.Keys
      && (forall id :: id in streams ==> streams[id] == all[id])
      && (forall id :: id in all ==> all[id].id == id)
      && (forall id :: id in all && id in streams ==> all[id].State() == before[id])
      && (forall id :: id in all && id !in streams ==> all[id].State() == FailWith(before[id], why))
    }

    /** failAll: every registered stream fails, and the registry is empty. */
    method FailAll(why: Status)
      requires Valid()
      modifies this`streams, streams.Values
      ensures streams == map[]
      ensures forall id :: id in old(streams) ==> old(streams)[id].State() == FailWith(old(streams[id].State()), why)
    {
      ghost var all := streams;
      ghost var before := map id | id in streams :: streams[id].State();
      while streams.Keys != {}
        invariant FailedSoFar(all, before, why)
        decreases streams.Keys
      {
        var id :| id in streams.Keys;
        FailNext(id, why, all, before);
      }
    }

    /** One turn of failAll's range loop. */
    method FailNext(id: Uint32, why: Status, ghost all: map<Uint32, Stream>, ghost before: map<Uint32, StreamState>)
      requires id in streams && FailedSoFar(all, before, why)
      modifies this`streams, streams[id]
      ensures FailedSoFar(all, before, why) && streams.Keys == old(streams.Keys) - {id}
    {
      FailOne(id, why, all);
    }

    /** Ids identify objects, so failing one leaves the others untouched. */
    method FailOne(id: Uint32, why: Status, ghost all: map<Uint32, Stream>)
      requires id in streams && streams.Keys <= all.Keys && streams[id] == all[id]
      requires forall i :: i in all ==> all[i].id == i
      modifies this`streams, streams[id]
      ensures streams == old(streams) - {id}
      ensures all[id].State() == FailWith(old(all[id].State()), why)
      ensures forall i :: i in all && i != id ==> all[i].State() == old(all[i].State())
    {
      streams[id].Fail(why);
      streams := streams - {id};
    }
  }

  // ---- interleaved runs ----

  /** What the runtime holds: every Stream object ever made under an id, in
      order, and which of them the registry names. A caller or handler may
      still use an object the registry no longer names. */
  datatype Registry = Registry(objs: map<Uint32, seq<StreamState>>, streams: map<Uint32, nat>)

  datatype Config = Config(server: bool, window: int, maxStreams: int)

  datatype Event =
    | Inbound(f: Frame)
    | LocalOpen(id: Uint32)                           // newClientStream registers a stream
    | LocalRecv(id: Uint32, gen: nat)                 // a receive takes the head of the backlog
    | LocalEnd(id: Uint32, gen: nat)                  // a receive that saw `ended` runs recvEnded
    | LocalSend(id: Uint32, gen: nat, n: nat)         // a send reserves n bytes
    | LocalFail(id: Uint32, gen: nat, why: Status)    // end() terminates locally
    | Remove(id: Uint32)                              // deferred remove, or a failed OPEN write
    | FailAll(why: Status)

  /** The id an event is about; FailAll is about all of them. */
  function About(e: Event): Option<Uint32> {
    match e
    case Inbound(f) => Some(f.id)
    case FailAll(_) => None
    case _ => Some(e.id)
  }

  /** popRecv and deliverPayload. */
  function Consume(s: StreamState): StreamState
    requires s.recvItems != []
  {
    AccountCredit(PopRecv(s), |s.recvItems[0]|)
  }

  /** What a receiver, a sender or a handler does to the object it holds. */
  function LocalStep(s: StreamState, e: Event): StreamState {
    match e
    case LocalRecv(_, _) => if s.recvItems == [] then s else Consume(s)
    case LocalEnd(_, _) => if !s.ended then s else if s.recvItems != [] then Consume(s) else RecvEnded(s)
    case LocalSend(_, _, n) => s.(sendWindow := if s.sendWindow > 0 then s.sendWindow - n else s.sendWindow)
    case LocalFail(_, _, why) => FailWith(s, why)
    case _ => s
  }

  predicate IsLocal(e: Event) { e.LocalRecv? || e.LocalEnd? || e.LocalSend? || e.LocalFail? }

  // -- effects on the objects of one id; out-of-range generations do not exist --

  function Routed(c: Config, gens: seq<StreamState>, g: nat, f: Frame): seq<StreamState> {
    if g < |gens| then gens[g := RouteStream(c.server, gens[g], f)] else gens
  }

  predicate Drops(gens: seq<StreamState>, g: nat, f: Frame) { g < |gens| && Detaches(gens[g], f) }

  function Touched(gens: seq<StreamState>, e: Event): seq<StreamState>
    requires IsLocal(e)
  {
    if e.gen < |gens| then gens[e.gen := LocalStep(gens[e.gen], e)] else gens
  }

  function Failed(gens: seq<StreamState>, g: nat, why: Status): seq<StreamState> {
    if g < |gens| then gens[g := FailWith(gens[g], why)] else gens
  }

  // -- one id on its own: all its objects, and which one is registered --

  datatype Slot = Slot(gens: seq<StreamState>, live: Option<nat>)

  function SlotInbound(c: Config, sl: Slot, f: Frame): Slot {
    if f.Open? then
      if c.server && sl.live.None? then Slot(sl.gens + [NewStream(f.id, c.window, f.headers)], Some(|sl.gens|)) else sl
    else if sl.live.None? then sl
    else Slot(Routed(c, sl.gens, sl.live.value, f), if Drops(sl.gens, sl.live.value, f) then None else sl.live)
  }

  function SlotStep(c: Config, sl: Slot, e: Event): Slot {
    match e
    case Inbound(f) => SlotInbound(c, sl, f)
    case LocalOpen(id) => Slot(sl.gens + [NewStream(id, c.window, map[])], Some(|sl.gens|))
    case Remove(_) => sl.(live := None)
    case FailAll(why) => Slot(if sl.live.Some? then Failed(sl.gens, sl.live.value, why) else sl.gens, None)
    case _ => sl.(gens := Touched(sl.gens, e))
  }

  function SlotRun(c: Config, sl: Slot, es: seq<Event>): Slot
    decreases |es|
  {
    if es == [] then sl else SlotRun(c, SlotStep(c, sl, es[0]), es[1..])
  }

  // -- the whole mux: shared maps --

  function Objs(r: Registry, id: Uint32): seq<StreamState> { if id in r.objs then r.objs[id] else [] }

  /** The cap is the one thing an OPEN shares with other streams. */
  predicate CapRefuses(c: Config, r: Registry, f: Frame) {
    f.Open? && c.server && f.id !in r.streams && c.maxStreams > 0 && |r.streams| >= c.maxStreams
  }

  function Insert(c: Config, r: Registry, id: Uint32, header: Headers): Registry {
    Registry(r.objs[id := Objs(r, id) + [NewStream(id, c.window, header)]], r.streams[id := |Objs(r, id)|])
  }

  function MuxInbound(c: Config, r: Registry, f: Frame): Registry {
    if f.Open? then
      if !c.server || f.id in r.streams || CapRefuses(c, r, f) then r else Insert(c, r, f.id, f.headers)
    else if f.id !in r.streams then r
    else
      var g := r.streams[f.id];
      Registry(r.objs[f.id := Routed(c, Objs(r, f.id), g, f)],
               if Drops(Objs(r, f.id), g, f) then r.streams - {f.id} else r.streams)
  }

  function FailEach(r: Registry, why: Status): Registry {
    Registry(map id | id in r.objs ::
               if id in r.streams then Failed(r.objs[id], r.streams[id], why) else r.objs[id],
             map[])
  }

  function MuxStep(c: Config, r: Registry, e: Event): Registry {
    match e
    case Inbound(f) => MuxInbound(c, r, f)
    case LocalOpen(id) => Insert(c, r, id, map[])
    case Remove(id) => r.(streams := r.streams - {id})
    case FailAll(why) => FailEach(r, why)
    case _ => r.(objs := if e.id in r.objs then r.objs[e.id := Touched(r.objs[e.id], e)] else r.objs)
  }

  function MuxRun(c: Config, r: Registry, es: seq<Event>): Registry
    decreases |es|
  {
    if es == [] then r else MuxRun(c, MuxStep(c, r, es[0]), es[1..])
  }

  // -- refinement --

  function SlotOf(r: Registry, id: Uint32): Slot {
    Slot(Objs(r, id), if id in r.streams then Some(r.streams[id]) else None)
  }

  predicate Concerns(e: Event, id: Uint32) { About(e).None? || About(e).value == id }

  lemma StepRefines(c: Config, r: Registry, e: Event, id: Uint32)
    requires e.Inbound? ==> !CapRefuses(c, r, e.f)
    ensures SlotOf(MuxStep(c, r, e), id) == if Concerns(e, id) then SlotStep(c, SlotOf(r, id), e) else SlotOf(r, id)
  {
  }

  /** The events of a run that concern one id, in order. */
  function Project(es: seq<Event>, id: Uint32): seq<Event> {
    if es == [] then [] else (if Concerns(es[0], id) then [es[0]] else []) + Project(es[1..], id)
  }

  /** No OPEN of the run is turned away by the cap. Holds of every client run
      and of every run of a server without a cap. */
  predicate CapNeverRefuses(c: Config, r: Registry, es: seq<Event>)
    decreases |es|
  {
    es != [] ==> (es[0].Inbound? ==> !CapRefuses(c, r, es[0].f)) && CapNeverRefuses(c, MuxStep(c, r, es[0]), es[1..])
  }

  /** Demultiplexing refines independent streams. */
  lemma {:induction false} DemuxRefines(c: Config, r: Registry, es: seq<Event>, id: Uint32)
    requires CapNeverRefuses(c, r, es)
    ensures SlotOf(MuxRun(c, r, es), id) == SlotRun(c, SlotOf(r, id), Project(es, id))
    decreases |es|
  {
    if es != [] {
      StepRefines(c, r, es[0], id);
      DemuxRefines(c, MuxStep(c, r, es[0]), es[1..], id);
      ProjectHead(c, r, es, id);
    }
  }

  lemma {:induction false} UncappedNeverRefuses(c: Config, r: Registry, es: seq<Event>)
    requires !c.server || c.maxStreams <= 0
    ensures CapNeverRefuses(c, r, es)
    decreases |es|
  {
    if es != [] { UncappedNeverRefuses(c, MuxStep(c, r, es[0]), es[1..]); }
  }

  /** Whatever the other streams do, overflow and end included, a stream ends up the same. */
  lemma StreamsDoNotInterfere(c: Config, r: Registry, es: seq<Event>, es': seq<Event>, id: Uint32)
    requires !c.server || c.maxStreams <= 0
    requires Project(es, id) == Project(es', id)
    ensures SlotOf(MuxRun(c, r, es), id) == SlotOf(MuxRun(c, r, es'), id)
  {
    UncappedNeverRefuses(c, r, es);
    UncappedNeverRefuses(c, r, es');
    DemuxRefines(c, r, es, id);
    DemuxRefines(c, r, es', id);
  }

  /** After every prefix of the run, every id's streams are what its own events alone
      make of them. */
  ghost predicate Independent(c: Config, r: Registry, es: seq<Event>) {
    forall n, id :: 0 <= n <= |es| ==>
      SlotOf(MuxRun(c, r, es[..n]), id) == SlotRun(c, SlotOf(r, id), Project(es[..n], id))
  }

  lemma {:induction false} CapNeverRefusesPrefix(c: Config, r: Registry, es: seq<Event>, n: nat)
    requires n <= |es| && CapNeverRefuses(c, r, es)
    ensures CapNeverRefuses(c, r, es[..n])
    decreases n
  {
    if n > 0 {
      assert es[..n][1..] == es[1..][..n - 1];
      CapNeverRefusesPrefix(c, MuxStep(c, r, es[0]), es[1..], n - 1);
    }
  }

  /** A refused OPEN leaves its id without the stream it would have on its own. */
  lemma RefusalShows(c: Config, r: Registry, es: seq<Event>)
    requires es != [] && es[0].Inbound? && CapRefuses(c, r, es[0].f)
    ensures !Independent(c, r, es)
  {
    var id := es[0].f.id;
    var one := es[..1];
    assert one == [es[0]] && one[1..] == [] && MuxRun(c, r, one) == MuxRun(c, r, []) == r;
    assert Project(one, id) == [es[0]] + Project([], id) == [es[0]];
    assert [es[0]][1..] == [] && SlotRun(c, SlotOf(r, id), [es[0]]) == SlotStep(c, SlotOf(r, id), es[0]);
    assert |SlotStep(c, SlotOf(r, id), es[0]).gens| == |SlotOf(r, id).gens| + 1;
    assert SlotOf(MuxRun(c, r, es[..1]), id) != SlotRun(c, SlotOf(r, id), Project(es[..1], id));
  }

  /** An event that is not refused hands independence to the rest of the run. */
  lemma TailIndependent(c: Config, r: Registry, es: seq<Event>)
    requires es != [] && (es[0].Inbound? ==> !CapRefuses(c, r, es[0].f)) && Independent(c, r, es)
    ensures Independent(c, MuxStep(c, r, es[0]), es[1..])
  {
    var t := MuxStep(c, r, es[0]);
    forall n, id | 0 <= n <= |es| - 1
      ensures SlotOf(MuxRun(c, t, es[1..][..n]), id) == SlotRun(c, SlotOf(t, id), Project(es[1..][..n], id))
    {
      var more := es[..n + 1];
      assert more[0] == es[0] && more[1..] == es[1..][..n];
      assert SlotOf(MuxRun(c, r, more), id) == SlotRun(c, SlotOf(r, id), Project(more, id));
      StepRefines(c, r, es[0], id);
      ProjectHead(c, r, more, id);
    }
  }

  lemma ProjectHead(c: Config, r: Registry, es: seq<Event>, id: Uint32)
    requires es != [] && (es[0].Inbound? ==> !CapRefuses(c, r, es[0].f))
    ensures SlotRun(c, SlotOf(r, id), Project(es, id))
            == SlotRun(c, SlotOf(MuxStep(c, r, es[0]), id), Project(es[1..], id))
  {
    StepRefines(c, r, es[0], id);
    if Concerns(es[0], id) {
      assert Project(es, id)[1..] == Project(es[1..], id);
    } else {
      assert Project(es, id) == Project(es[1..], id);
    }
  }

  /** The exact condition, over whole runs: streams are independent throughout if and only
      if the cap turns no OPEN away. */
  lemma {:induction false} IndependentIff(c: Config, r: Registry, es: seq<Event>)
    ensures Independent(c, r, es) <==> CapNeverRefuses(c, r, es)
    decreases |es|
  {
    if CapNeverRefuses(c, r, es) {
      forall n, id | 0 <= n <= |es|
        ensures SlotOf(MuxRun(c, r, es[..n]), id) == SlotRun(c, SlotOf(r, id), Project(es[..n], id))
      {
        CapNeverRefusesPrefix(c, r, es, n);
        DemuxRefines(c, r, es[..n], id);
      }
    } else if es[0].Inbound? && CapRefuses(c, r, es[0].f) {
      RefusalShows(c, r, es);
    } else {
      IndependentIff(c, MuxStep(c, r, es[0]), es[1..]);
      if Independent(c, r, es) { TailIndependent(c, r, es); }
    }
  }

  // -- the backlog bound, against any peer --

  ghost predicate Bounded(sl: Slot, m: nat) {
    forall i :: 0 <= i < |sl.gens| ==> Accounted(sl.gens[i], m)
  }

  /** No inbound payload is longer than m. */
  predicate InboundWithin(e: Event, m: nat) { e.Inbound? && IsMessage(e.f) ==> |e.f.payload| <= m }

  lemma RouteKeepsAccount(server: bool, s: StreamState, f: Frame, m: nat)
    requires Accounted(s, m) && (IsMessage(f) ==> |f.payload| <= m)
    ensures Accounted(RouteStream(server, s, f), m)
  {
    if IsMessage(f) { DeliverKeepsAccount(s, f.payload, m); }
  }

  lemma LocalKeepsAccount(s: StreamState, e: Event, m: nat)
    requires Accounted(s, m)
    ensures Accounted(LocalStep(s, e), m)
  {
    if s.recvItems != [] { PopKeepsAccount(s, m); }
  }

  lemma SlotKeepsBound(c: Config, sl: Slot, e: Event, m: nat)
    requires Bounded(sl, m) && InboundWithin(e, m)
    ensures Bounded(SlotStep(c, sl, e), m)
  {
    var t := SlotStep(c, sl, e);
    forall i | 0 <= i < |t.gens| ensures Accounted(t.gens[i], m) {
      if i < |sl.gens| {
        if e.Inbound? && sl.live == Some(i) { RouteKeepsAccount(c.server, sl.gens[i], e.f, m); }
        if IsLocal(e) { LocalKeepsAccount(sl.gens[i], e, m); }
      }
    }
  }

  lemma {:induction false} RunKeepsBound(c: Config, r: Registry, es: seq<Event>, id: Uint32, m: nat)
    requires Bounded(SlotOf(r, id), m) && forall i :: 0 <= i < |es| ==> InboundWithin(es[i], m)
    ensures Bounded(SlotOf(MuxRun(c, r, es), id), m)
    decreases |es|
  {
    if es != [] {
      var t := MuxStep(c, r, es[0]);
      if es[0].Inbound? && CapRefuses(c, r, es[0].f) {
        assert t == r;
      } else {
        StepRefines(c, r, es[0], id);
        SlotKeepsBound(c, SlotOf(r, id), es[0], m);
      }
      RunKeepsBound(c, t, es[1..], id, m);
    }
  }

  /** Every stream object of every mux run, whatever the peer sends, holds at most
      its window plus one largest payload, and counts its backlog exactly. */
  lemma BacklogBounded(c: Config, es: seq<Event>, id: Uint32, gen: nat, m: nat)
    requires forall i :: 0 <= i < |es| ==> InboundWithin(es[i], m)
    requires gen < |Objs(MuxRun(c, Registry(map[], map[]), es), id)|
    ensures var s := Objs(MuxRun(c, Registry(map[], map[]), es), id)[gen];
            s.recvBytes == TotalBytes(s.recvItems) <= s.initialWindow + m
  {
    RunKeepsBound(c, Registry(map[], map[]), es, id, m);
    assert Bounded(SlotOf(MuxRun(c, Registry(map[], map[]), es), id), m);
  }

  /** The failing side is reached: the second OPEN on a server that takes one stream. */
  lemma RefusalHappens(window: int, h: Headers)
    ensures var es := [Inbound(Open(1, "", h)), Inbound(Open(3, "", h))];
            !Independent(Config(true, window, 1), Registry(map[], map[]), es)
  {
    var (c, r) := (Config(true, window, 1), Registry(map[], map[]));
    var es := [Inbound(Open(1, "", h)), Inbound(Open(3, "", h))];
    var t := MuxStep(c, r, es[0]);
    assert t.streams == map[1 := 0] && |t.streams| == 1;
    assert es[1..][0] == es[1] && CapRefuses(c, t, es[1].f);
    assert !CapNeverRefuses(c, t, es[1..]);
    IndependentIff(c, r, es);
  }
}
