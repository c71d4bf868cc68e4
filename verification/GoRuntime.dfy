/** The Go mux together with the streams that handlers and callers hold: objects
    on the heap, shared between the registry and their users. Every event of
    the value machine in GoMux is carried out by the objects, so what holds of
    every run of the machine holds of them. */
module GoRuntime {
  import opened Frames
  import opened GoStream
  import opened GoMux

  datatype Place = Place(id: Uint32, gen: nat)

  type Held = map<Uint32, seq<Stream>>
  type Snapshot = map<Stream, StreamState>

  ghost function Snap(objects: set<Stream>): Snapshot
    reads objects
  {
    map s | s in objects :: s.State()
  }

  predicate HoldsAt(held: Held, at: Place, s: Stream) {
    at.id in held && at.gen < |held[at.id]| && held[at.id][at.gen] == s
  }

  lemma SnapNew(objects: set<Stream>, s: Stream)
    requires s !in objects
    ensures Snap(objects + {s}) == Snap(objects)[s := s.State()]
  {
  }

  /** Each object is held once, and the places say where. */
  ghost predicate Placed(held: Held, place: map<Stream, Place>) {
    && (forall id, i :: id in held && 0 <= i < |held[id]| ==>
          held[id][i] in place && place[held[id][i]] == Place(id, i))
    && (forall s :: s in place ==> HoldsAt(held, place[s], s))
  }

  /** objs holds the states of the objects, place by place. */
  ghost predicate Mirrored(held: Held, snap: Snapshot, objs: map<Uint32, seq<StreamState>>) {
    && objs.Keys == held.Keys
    && (forall id :: id in held ==> |objs[id]| == |held[id]|)
    && (forall id, i :: id in held && 0 <= i < |held[id]| ==> held[id][i] in snap && objs[id][i] == snap[held[id][i]])
  }

  /** The registry names the generations the model says. */
  ghost predicate Named(held: Held, streams: map<Uint32, Stream>, live: map<Uint32, nat>) {
    && streams.Keys == live.Keys
    && (forall id :: id in streams ==> id in held && live[id] < |held[id]| && streams[id] == held[id][live[id]])
  }

  // ---- the same change on both sides ----

  lemma OneMirrored(held: Held, place: map<Stream, Place>, snap: Snapshot, objs: map<Uint32, seq<StreamState>>,
                    id: Uint32, g: nat, st: StreamState)
    requires Placed(held, place) && Mirrored(held, snap, objs) && id in held && g < |held[id]|
    ensures Mirrored(held, snap[held[id][g] := st], objs[id := objs[id][g := st]])
  {
    var (snap', objs') := (snap[held[id][g] := st], objs[id := objs[id][g := st]]);
    forall k, i | k in held && 0 <= i < |held[k]| ensures held[k][i] in snap' && objs'[k][i] == snap'[held[k][i]] {
      assert place[held[k][i]] == Place(k, i) && place[held[id][g]] == Place(id, g);
    }
  }

  function Gens(held: Held, id: Uint32): seq<Stream> { if id in held then held[id] else [] }

  function Grown(held: Held, s: Stream): Held { held[s.id := Gens(held, s.id) + [s]] }

  lemma NewPlaced(held: Held, place: map<Stream, Place>, s: Stream)
    requires Placed(held, place) && s !in place
    ensures Placed(Grown(held, s), place[s := Place(s.id, |Gens(held, s.id)|)])
  {
    var place' := place[s := Place(s.id, |Gens(held, s.id)|)];
    forall t | t in place' ensures HoldsAt(Grown(held, s), place'[t], t) {
      if t != s { assert HoldsAt(held, place[t], t); }
    }
  }

  lemma NewMirrored(held: Held, place: map<Stream, Place>, snap: Snapshot, r: Registry, s: Stream, st: StreamState)
    requires Placed(held, place) && Mirrored(held, snap, r.objs) && s !in place
    ensures Mirrored(Grown(held, s), snap[s := st], r.objs[s.id := Objs(r, s.id) + [st]])
  {
    var (held', snap', objs') := (Grown(held, s), snap[s := st], r.objs[s.id := Objs(r, s.id) + [st]]);
    forall k, i | k in held' && 0 <= i < |held'[k]| ensures held'[k][i] in snap' && objs'[k][i] == snap'[held'[k][i]] {
      if k in held && i < |held[k]| { assert held[k][i] in place && held[k][i] in snap; }
    }
  }

  /** A connection loss reaches the objects the registry names. */
  predicate Reached(at: Place, live: map<Uint32, nat>) { at.id in live && live[at.id] == at.gen }

  function FailedIf(reached: bool, st: StreamState, why: Status): StreamState {
    if reached then FailWith(st, why) else st
  }

  ghost function AllFailed(place: map<Stream, Place>, snap: Snapshot, live: map<Uint32, nat>, why: Status): Snapshot {
    map s | s in snap :: FailedIf(s in place && Reached(place[s], live), snap[s], why)
  }

  lemma NewNamed(held: Held, streams: map<Uint32, Stream>, live: map<Uint32, nat>, s: Stream)
    requires Named(held, streams, live)
    ensures Named(Grown(held, s), streams[s.id := s], live[s.id := |Gens(held, s.id)|])
  {
  }

  lemma NamedWithout(held: Held, streams: map<Uint32, Stream>, live: map<Uint32, nat>, id: Uint32)
    requires Named(held, streams, live)
    ensures Named(held, streams - {id}, live - {id})
  {
  }

  lemma FailMirrored(held: Held, place: map<Stream, Place>, snap: Snapshot, r: Registry, why: Status)
    requires Placed(held, place) && Mirrored(held, snap, r.objs)
    requires forall id :: id in r.streams ==> id in held && r.streams[id] < |held[id]|
    ensures Mirrored(held, AllFailed(place, snap, r.streams, why), FailEach(r, why).objs)
  {
    var (snap', objs') := (AllFailed(place, snap, r.streams, why), FailEach(r, why).objs);
    forall k, i | k in held && 0 <= i < |held[k]| ensures held[k][i] in snap' && objs'[k][i] == snap'[held[k][i]] {
      assert place[held[k][i]] == Place(k, i);
    }
  }

  // ---- what the machine's events do to it ----

  lemma LocalTouches(c: Config, r: Registry, e: Event)
    requires IsLocal(e) && e.id in r.objs && e.gen < |r.objs[e.id]|
    ensures MuxStep(c, r, e) == r.(objs := r.objs[e.id := r.objs[e.id][e.gen := LocalStep(r.objs[e.id][e.gen], e)]])
  {
  }

  lemma LocalNowhere(c: Config, r: Registry, e: Event)
    requires IsLocal(e) && !(e.id in r.objs && e.gen < |r.objs[e.id]|)
    ensures MuxStep(c, r, e) == r
  {
    assert e.id in r.objs ==> r.objs[e.id := r.objs[e.id]] == r.objs;
  }

  lemma RouteTouches(c: Config, r: Registry, f: Frame)
    requires !f.Open? && f.id in r.streams && f.id in r.objs && r.streams[f.id] < |r.objs[f.id]|
    ensures var (g, st) := (r.streams[f.id], r.objs[f.id][r.streams[f.id]]);
            && MuxStep(c, r, Inbound(f)).objs == r.objs[f.id := r.objs[f.id][g := RouteStream(c.server, st, f)]]
            && MuxStep(c, r, Inbound(f)).streams == if Detaches(st, f) then r.streams - {f.id} else r.streams
  {
  }

  predicate Opens(c: Config, r: Registry, f: Frame) {
    f.Open? && c.server && f.id !in r.streams && (c.maxStreams > 0 ==> |r.streams| < c.maxStreams)
  }

  lemma OpenInserts(c: Config, r: Registry, f: Frame)
    requires f.Open?
    ensures MuxStep(c, r, Inbound(f)) == if Opens(c, r, f) then Insert(c, r, f.id, f.headers) else r
  {
  }

  /** A mux and every stream ever made under each id, in order. */
  class Runtime {
    const mux: Mux
    var held: Held
    ghost var place: map<Stream, Place>     // where each object is held
    ghost var model: Registry               // what the value machine says of all this

    ghost predicate Valid()
      reads this, mux, place.Keys
    {
      && Placed(held, place) && Mirrored(held, Snap(place.Keys), model.objs)
      && Named(held, mux.streams, model.streams) && mux.Valid()
    }

    ghost function Conf(): Config { Config(mux.server, mux.window, mux.maxStreams) }

    constructor (server: bool, window: int, maxStreams: int)
      ensures Valid() && Conf() == Config(server, window, maxStreams) && model == Registry(map[], map[]) && fresh(mux)
    {
      mux := new Mux(server, window, maxStreams);
      held, place, model := map[], map[], Registry(map[], map[]);
    }

    twostate lemma OneChanged(s: Stream)
      requires unchanged(this) && s in place && unchanged(place.Keys - {s})
      ensures Snap(place.Keys) == old(Snap(place.Keys))[s := s.State()]
    {
    }

    /** One object has changed, and the model makes the same change. */
    ghost method Commit(snap: Snapshot, id: Uint32, g: nat, next: Registry)
      requires Placed(held, place) && Mirrored(held, snap, model.objs) && id in held && g < |held[id]|
      requires Snap(place.Keys) == snap[held[id][g] := held[id][g].State()]
      requires next.objs == model.objs[id := model.objs[id][g := held[id][g].State()]]
      requires Named(held, mux.streams, next.streams) && mux.Valid()
      modifies this`model
      ensures Valid() && model == next
    {
      OneMirrored(held, place, snap, model.objs, id, g, held[id][g].State());
      model := next;
    }

    ghost method Adopt(next: Registry)
      requires Placed(held, place) && Mirrored(held, Snap(place.Keys), next.objs)
      requires Named(held, mux.streams, next.streams) && mux.Valid()
      modifies this`model
      ensures Valid() && model == next
    {
      model := next;
    }

    // ---- what users do to the streams they hold ----

    method Local(e: Event)
      requires Valid() && IsLocal(e)
      modifies this`model, place.Keys
      ensures Valid() && model == MuxStep(Conf(), old(model), e)
    {
      if e.id in held && e.gen < |held[e.id]| {
        LocalTouches(Conf(), model, e);
        LocalOn(held[e.id][e.gen], e, MuxStep(Conf(), model, e));
      } else {
        LocalNowhere(Conf(), model, e);
      }
    }

    method LocalOn(s: Stream, e: Event, ghost next: Registry)
      requires Valid() && IsLocal(e) && e.id in held && e.gen < |held[e.id]| && s == held[e.id][e.gen]
      requires var gens := model.objs[e.id];
               next == model.(objs := model.objs[e.id := gens[e.gen := LocalStep(gens[e.gen], e)]])
      modifies this`model, place.Keys
      ensures Valid() && model == next
    {
      ghost var snap := Snap(place.Keys);
      Use(s, e);
      OneChanged(s);
      Commit(snap, e.id, e.gen, next);
    }

    /** One receive, send or failure on a stream, run without interference. */
    method Use(s: Stream, e: Event)
      requires IsLocal(e)
      modifies s
      ensures s.State() == LocalStep(old(s.State()), e)
    {
      match e
      case LocalRecv(_, _) => if |s.recvItems| > 0 { Receive(s); }
      case LocalEnd(_, _) => if s.ended { Ended(s); }
      case LocalSend(_, _, n) => var _ := s.TrySend(n);
      case LocalFail(_, _, why) => s.Fail(why);
    }

    method Receive(s: Stream)
      requires s.recvItems != []
      modifies s
      ensures s.State() == Consume(old(s.State()))
    {
      var item := s.Pop();
      var _ := s.TakeCredit(|item.value|);
    }

    method Ended(s: Stream)
      requires s.ended
      modifies s
      ensures s.State() == LocalStep(old(s.State()), LocalEnd(s.id, 0))
    {
      if |s.recvItems| > 0 { Receive(s); } else { var _ := s.ReceiveEnded(); }
    }

    // ---- frames ----

    /** Every frame but OPEN. */
    method Route(f: Frame)
      requires Valid() && !f.Open?
      modifies mux, this`model, place.Keys
      ensures Valid() && model == MuxStep(Conf(), old(model), Inbound(f))
    {
      if f.id in mux.streams {
        RouteKnown(mux.streams[f.id], f);
      } else {
        mux.Route(f);
      }
    }

    method RouteKnown(s: Stream, f: Frame)
      requires Valid() && !f.Open? && f.id in mux.streams && mux.streams[f.id] == s
      modifies mux, this`model, place.Keys
      ensures Valid() && model == MuxStep(Conf(), old(model), Inbound(f))
    {
      RouteTouches(Conf(), model, f);
      RouteOn(s, f, MuxStep(Conf(), model, Inbound(f)));
    }

    method RouteOn(s: Stream, f: Frame, ghost next: Registry)
      requires Valid() && !f.Open? && f.id in mux.streams && mux.streams[f.id] == s
      requires var (g, st) := (model.streams[f.id], s.State());
               && next.objs == model.objs[f.id := model.objs[f.id][g := RouteStream(mux.server, st, f)]]
               && next.streams == if Detaches(st, f) then model.streams - {f.id} else model.streams
      modifies mux, this`model, place.Keys
      ensures Valid() && model == next
    {
      ghost var (snap, g) := (Snap(place.Keys), model.streams[f.id]);
      RouteOnly(s, f);
      Commit(snap, f.id, g, next);
    }

    /** The named stream alone changes, among all the streams anybody holds. */
    method RouteOnly(s: Stream, f: Frame)
      requires mux.Valid() && !f.Open? && f.id in mux.streams && mux.streams[f.id] == s && s in place
      modifies mux, s
      ensures mux.Valid() && s.State() == RouteStream(mux.server, old(s.State()), f)
      ensures mux.streams == if Detaches(old(s.State()), f) then old(mux.streams) - {f.id} else old(mux.streams)
      ensures Snap(place.Keys) == old(Snap(place.Keys))[s := s.State()]
    {
      mux.Route(f);
      OneChanged(s);
    }

    /** A stream the mux has just registered. */
    method Admit(s: Stream, ghost streams: map<Uint32, Stream>, ghost next: Registry)
      requires Placed(held, place) && Mirrored(held, Snap(place.Keys), model.objs) && mux.Valid() && s !in place
      requires Named(held, streams, model.streams) && mux.streams == streams[s.id := s]
      requires next == Registry(model.objs[s.id := Objs(model, s.id) + [s.State()]],
                                model.streams[s.id := |Objs(model, s.id)|])
      modifies this
      ensures Valid() && model == next && place.Keys == old(place.Keys) + {s}
    {
      NewPlaced(held, place, s);
      NewMirrored(held, place, Snap(place.Keys), model, s, s.State());
      NewNamed(held, streams, model.streams, s);
      SnapNew(place.Keys, s);
      Extend(s, Grown(held, s), place[s := Place(s.id, |Gens(held, s.id)|)], next);
    }

    method Extend(s: Stream, held': Held, ghost place': map<Stream, Place>, ghost next: Registry)
      requires Placed(held', place') && Mirrored(held', Snap(place.Keys + {s}), next.objs)
      requires place'.Keys == place.Keys + {s} && Named(held', mux.streams, next.streams) && mux.Valid()
      modifies this
      ensures Valid() && model == next && place.Keys == old(place.Keys) + {s}
    {
      held, place, model := held', place', next;
    }

    method RouteOpen(f: Frame)
      requires Valid() && f.Open?
      modifies mux, this
      ensures Valid() && model == MuxStep(Conf(), old(model), Inbound(f)) && fresh(place.Keys - old(place.Keys))
    {
      OpenInserts(Conf(), model, f);
      assert |mux.streams.Keys| == |model.streams.Keys|;
      ghost var streams := mux.streams;
      var created := mux.RouteOpen(f);
      if created.Some? { Admit(created.value, streams, Insert(Conf(), model, f.id, f.headers)); }
    }

    method Open(id: Uint32)
      requires Valid()
      modifies mux, this
      ensures Valid() && model == MuxStep(Conf(), old(model), LocalOpen(id)) && fresh(place.Keys - old(place.Keys))
    {
      ghost var streams := mux.streams;
      var s := mux.OpenLocal(id);
      Admit(s, streams, Insert(Conf(), model, id, map[]));
    }

    method Forget(id: Uint32)
      requires Valid()
      modifies mux, this`model
      ensures Valid() && model == MuxStep(Conf(), old(model), Remove(id))
    {
      NamedWithout(held, mux.streams, model.streams, id);
      mux.Remove(id);
      Adopt(model.(streams := model.streams - {id}));
    }

    method FailEvery(why: Status)
      requires Valid()
      modifies mux, this`model, place.Keys
      ensures Valid() && model == MuxStep(Conf(), old(model), FailAll(why))
    {
      FailMirrored(held, place, Snap(place.Keys), model, why);
      FailOn(why, FailEach(model, why));
    }

    method FailOn(why: Status, ghost next: Registry)
      requires Valid() && next.streams == map[]
      requires Mirrored(held, AllFailed(place, Snap(place.Keys), model.streams, why), next.objs)
      modifies mux, this`model, place.Keys
      ensures Valid() && model == next
    {
      FailRegistered(why);
      Adopt(next);
    }

    method FailRegistered(why: Status)
      requires Placed(held, place) && Named(held, mux.streams, model.streams) && mux.Valid()
      modifies mux, place.Keys
      ensures mux.streams == map[] && mux.Valid()
      ensures Snap(place.Keys) == AllFailed(place, old(Snap(place.Keys)), model.streams, why)
    {
      ghost var (streams, before) := (mux.streams, Snap(place.Keys));
      mux.FailAll(why);
      SnapFailed(why, streams, before);
    }

    lemma SnapFailed(why: Status, streams: map<Uint32, Stream>, before: Snapshot)
      requires Placed(held, place) && Named(held, streams, model.streams) && before.Keys == place.Keys
      requires forall id :: id in streams ==>
        streams[id] in before && streams[id].State() == FailWith(before[streams[id]], why)
      requires forall s :: s in place.Keys && s !in streams.Values ==> s.State() == before[s]
      ensures Snap(place.Keys) == AllFailed(place, before, model.streams, why)
    {
      ghost var all := AllFailed(place, before, model.streams, why);
      forall s | s in place.Keys ensures s.State() == all[s] {
        SnapFailedAt(s, why, streams, before[s]);
      }
    }

    lemma SnapFailedAt(s: Stream, why: Status, streams: map<Uint32, Stream>, st: StreamState)
      requires Placed(held, place) && Named(held, streams, model.streams) && s in place
      requires forall id :: id in streams && streams[id] == s ==> s.State() == FailWith(st, why)
      requires s !in streams.Values ==> s.State() == st
      ensures s.State() == FailedIf(Reached(place[s], model.streams), st, why)
    {
      ReachedMeans(s, streams);
    }

    /** The registered objects are those whose place the registry names. */
    lemma ReachedMeans(s: Stream, streams: map<Uint32, Stream>)
      requires Placed(held, place) && Named(held, streams, model.streams) && s in place
      ensures Reached(place[s], model.streams) ==> streams[place[s].id] == s
      ensures !Reached(place[s], model.streams) ==> s !in streams.Values
    {
      assert HoldsAt(held, place[s], s);
      if id :| id in streams && streams[id] == s { assert place[s] == Place(id, model.streams[id]); }
    }

    /** The objects follow the machine event by event. */
    method Dispatch(e: Event)
      requires Valid()
      modifies mux, this, place.Keys
      ensures Valid() && model == MuxStep(Conf(), old(model), e) && fresh(place.Keys - old(place.Keys))
    {
      match e
      case Inbound(f) => if f.Open? { RouteOpen(f); } else { Route(f); }
      case LocalOpen(id) => Open(id);
      case Remove(id) => Forget(id);
      case FailAll(why) => FailEvery(why);
      case _ => Local(e);
    }

    /** Whole runs: the objects end up where the machine does. */
    method Replay(es: seq<Event>)
      requires Valid()
      modifies mux, this, place.Keys
      ensures Valid() && model == MuxRun(Conf(), old(model), es) && fresh(place.Keys - old(place.Keys))
    {
      for i := 0 to |es|
        invariant Valid() && fresh(place.Keys - old(place.Keys))
        invariant MuxRun(Conf(), model, es[i..]) == MuxRun(Conf(), old(model), es)
      {
        assert es[i..][0] == es[i] && es[i..][1..] == es[i + 1..];
        Dispatch(es[i]);
      }
    }
  }
}
