/** The server registry under interleaving (wsrpc/mux.go, wsrpc/server.go):
    the read loop's duplicate check, cap check and insert are three separate
    lock sections, and handlers returning on their own goroutines remove
    entries by id in between. */
module ServerRegistry {
  import opened Frames

  /** Where the read loop stands in the OPEN branch of route. */
  datatype LoopPc = LIdle | DupChecked(id: Uint32) | CapChecked(id: Uint32)

  /** Streams are numbered in order of creation: the number is the object. */
  datatype Server = Server(
    registry: map<Uint32, nat>,
    running: map<nat, Uint32>,   // handlers whose deferred remove(id) is still to come
    next: nat,
    pc: LoopPc)

  datatype Event =
    | OpenArrives(id: Uint32)    // the duplicate check
    | CapCheck
    | Insert
    | Terminated(id: Uint32)     // END, RST or overflow: the read loop removes the id
    | HandlerReturns(t: nat)     // serveStream's deferred remove
    | FailAll

  const INIT := Server(map[], map[], 0, LIdle)

  function DoReturn(s: Server, t: nat): Server
    requires t in s.running
  {
    s.(registry := s.registry - {s.running[t]}, running := s.running - {t})
  }

  function DoInsert(s: Server): Server
    requires s.pc.CapChecked?
  {
    Server(s.registry[s.pc.id := s.next], s.running[s.next := s.pc.id], s.next + 1, LIdle)
  }

  function Step(s: Server, maxStreams: int, e: Event): Option<Server> {
    match e
    case OpenArrives(id) =>
      if s.pc.LIdle? then Some(s.(pc := if id in s.registry then LIdle else DupChecked(id))) else None
    case CapCheck =>
      if s.pc.DupChecked?
      then Some(s.(pc := if maxStreams > 0 && |s.registry| >= maxStreams then LIdle else CapChecked(s.pc.id)))
      else None
    case Insert => if s.pc.CapChecked? then Some(DoInsert(s)) else None
    case Terminated(id) => if s.pc.LIdle? then Some(s.(registry := s.registry - {id})) else None
    case HandlerReturns(t) => if t in s.running then Some(DoReturn(s, t)) else None
    case FailAll => if s.pc.LIdle? then Some(s.(registry := map[])) else None
  }

  function Run(s: Server, maxStreams: int, es: seq<Event>): Option<Server>
    decreases |es|
  {
    if es == [] then Some(s)
    else
      var t := Step(s, maxStreams, es[0]);
      if t.None? then None else Run(t.value, maxStreams, es[1..])
  }

  // ---- the registry stays within the cap and never overwrites ----

  ghost predicate Filed(s: Server) {
    && (forall id :: id in s.registry ==> s.registry[id] in s.running && s.running[s.registry[id]] == id)
    && (forall t :: t in s.running ==> t < s.next)
    && (!s.pc.LIdle? ==> s.pc.id !in s.registry)
  }

  ghost predicate WithinCap(s: Server, maxStreams: int) {
    maxStreams > 0 ==>
      |s.registry| <= maxStreams && (s.pc.CapChecked? ==> |s.registry| < maxStreams)
  }

  ghost predicate Safe(s: Server, maxStreams: int) { Filed(s) && WithinCap(s, maxStreams) }

  lemma StepKeepsSafe(s: Server, maxStreams: int, e: Event)
    requires Safe(s, maxStreams) && Step(s, maxStreams, e).Some?
    ensures Safe(Step(s, maxStreams, e).value, maxStreams)
  {
  }

  ghost predicate Reaches(maxStreams: int, es: seq<Event>, s: Server) { Run(INIT, maxStreams, es) == Some(s) }

  lemma {:induction false} RunKeepsSafe(s: Server, maxStreams: int, es: seq<Event>)
    requires Safe(s, maxStreams) && Run(s, maxStreams, es).Some?
    ensures Safe(Run(s, maxStreams, es).value, maxStreams)
    decreases |es|
  {
    if es != [] {
      StepKeepsSafe(s, maxStreams, es[0]);
      RunKeepsSafe(Step(s, maxStreams, es[0]).value, maxStreams, es[1..]);
    }
  }

  /** In every interleaving: at most maxStreams entries, no insert over a live
      entry, and every entry belongs to a handler that has not returned. */
  lemma RegistrySafe(maxStreams: int, es: seq<Event>, s: Server)
    requires Reaches(maxStreams, es, s)
    ensures maxStreams > 0 ==> |s.registry| <= maxStreams
    ensures s.pc.CapChecked? ==> s.pc.id !in s.registry
    ensures forall id :: id in s.registry ==> s.registry[id] in s.running && s.running[s.registry[id]] == id
  {
    RunKeepsSafe(INIT, maxStreams, es);
  }

  // ---- who a deferred remove hits ----

  /** Every pending deferred remove finds its own stream, or nothing. */
  ghost predicate OwnRemoves(s: Server) {
    forall t :: t in s.running && s.running[t] in s.registry ==> s.registry[s.running[t]] == t
  }

  /** Without that, a returning handler unregisters somebody else's live stream. */
  lemma ForeignRemove(s: Server, maxStreams: int, t: nat)
    requires Safe(s, maxStreams) && t in s.running && s.running[t] in s.registry && s.registry[s.running[t]] != t
    ensures var victim := s.registry[s.running[t]];
            && victim in DoReturn(s, t).running
            && DoReturn(s, t).running[victim] !in DoReturn(s, t).registry
  {
  }

  /** The exact condition, at the one step that can break it: the peer must not
      reuse an id whose handler is still running. */
  lemma InsertKeepsOwnRemovesIff(s: Server, maxStreams: int)
    requires Safe(s, maxStreams) && OwnRemoves(s) && s.pc.CapChecked?
    ensures OwnRemoves(DoInsert(s)) <==> s.pc.id !in s.running.Values
  {
    var u := DoInsert(s);
    if t :| t in s.running && s.running[t] == s.pc.id {
      assert t in u.running && u.running[t] == s.pc.id && u.registry[s.pc.id] == s.next != t;
    }
  }

  lemma OthersKeepOwnRemoves(s: Server, maxStreams: int, e: Event)
    requires OwnRemoves(s) && Step(s, maxStreams, e).Some? && !e.Insert?
    ensures OwnRemoves(Step(s, maxStreams, e).value)
  {
  }

  ghost predicate OwnThroughout(s: Server, maxStreams: int, es: seq<Event>)
    requires Run(s, maxStreams, es).Some?
    decreases |es|
  {
    OwnRemoves(s) && (es != [] ==> OwnThroughout(Step(s, maxStreams, es[0]).value, maxStreams, es[1..]))
  }

  /** No insert of the run reuses the id of a running handler. */
  ghost predicate ReuseFree(s: Server, maxStreams: int, es: seq<Event>)
    requires Run(s, maxStreams, es).Some?
    decreases |es|
  {
    es != [] ==>
      && (es[0].Insert? ==> s.pc.id !in s.running.Values)
      && ReuseFree(Step(s, maxStreams, es[0]).value, maxStreams, es[1..])
  }

  /** Over whole runs: all deferred removes hit their own stream at every point
      if and only if no id is reused while its handler runs. */
  lemma {:induction false} OwnRemovesIff(s: Server, maxStreams: int, es: seq<Event>)
    requires Safe(s, maxStreams) && OwnRemoves(s) && Run(s, maxStreams, es).Some?
    ensures OwnThroughout(s, maxStreams, es) <==> ReuseFree(s, maxStreams, es)
    decreases |es|
  {
    if es != [] {
      var t := Step(s, maxStreams, es[0]).value;
      StepKeepsSafe(s, maxStreams, es[0]);
      if es[0].Insert? {
        InsertKeepsOwnRemovesIff(s, maxStreams);
      } else {
        OthersKeepOwnRemoves(s, maxStreams, es[0]);
      }
      if OwnRemoves(t) { OwnRemovesIff(t, maxStreams, es[1..]); }
    }
  }

  // ---- the ids a client allocates ----

  /** The k-th id of newClientStream: atomic.AddUint32(&nextID, 2) - 2 from 1. */
  function ClientId(k: nat): Uint32 { (1 + 2 * k) % 0x1_0000_0000 }

  lemma ClientIdsCollideIff(i: nat, j: nat)
    ensures ClientId(i) % 2 == 1
    ensures ClientId(i) == ClientId(j) <==> i % 0x8000_0000 == j % 0x8000_0000
  {
    ClientIdForm(i);
    ClientIdForm(j);
  }

  lemma ClientIdForm(i: nat)
    ensures ClientId(i) == 1 + 2 * (i % 0x8000_0000)
  {
  }

  /** The ids of the OPEN frames of a run, in order of arrival. */
  function Opens(es: seq<Event>): seq<Uint32> {
    if es == [] then [] else (if es[0].OpenArrives? then [es[0].id] else []) + Opens(es[1..])
  }

  ghost predicate Distinct(ids: seq<Uint32>) { forall i, j :: 0 <= i < j < |ids| ==> ids[i] != ids[j] }

  /** Every id around was seen, and the one being opened belongs to no running handler. */
  ghost predicate Seen(s: Server, seen: set<Uint32>) {
    && (forall t :: t in s.running ==> s.running[t] in seen)
    && (!s.pc.LIdle? ==> s.pc.id in seen && forall t :: t in s.running ==> s.running[t] != s.pc.id)
  }

  lemma StepKeepsSeen(s: Server, maxStreams: int, e: Event, seen: set<Uint32>)
    requires Seen(s, seen) && Step(s, maxStreams, e).Some? && (e.OpenArrives? ==> e.id !in seen)
    ensures Seen(Step(s, maxStreams, e).value, SeenAfter(e, seen))
  {
  }

  /** The OPENs of the run use each id once, and none that was seen. */
  ghost predicate FreshOpens(es: seq<Event>, seen: set<Uint32>) {
    Distinct(Opens(es)) && forall id :: id in Opens(es) ==> id !in seen
  }

  function SeenAfter(e: Event, seen: set<Uint32>): set<Uint32> { if e.OpenArrives? then seen + {e.id} else seen }

  lemma FreshTail(es: seq<Event>, seen: set<Uint32>)
    requires es != [] && FreshOpens(es, seen)
    ensures FreshOpens(es[1..], SeenAfter(es[0], seen)) && (es[0].OpenArrives? ==> es[0].id !in seen)
  {
    var (ids, rest) := (Opens(es), Opens(es[1..]));
    if es[0].OpenArrives? {
      assert ids[0] == es[0].id;
      assert forall i :: 0 <= i < |rest| ==> rest[i] == ids[i + 1] != ids[0];
    } else {
      assert ids == rest;
    }
  }

  lemma {:induction false} DistinctOpensReuseFree(s: Server, maxStreams: int, es: seq<Event>, seen: set<Uint32>)
    requires Run(s, maxStreams, es).Some? && Seen(s, seen) && FreshOpens(es, seen)
    ensures ReuseFree(s, maxStreams, es)
    decreases |es|
  {
    if es != [] {
      FreshTail(es, seen);
      StepKeepsSeen(s, maxStreams, es[0], seen);
      DistinctOpensReuseFree(Step(s, maxStreams, es[0]).value, maxStreams, es[1..], SeenAfter(es[0], seen));
    }
  }

  /** The OPEN of the i-th arrival carries allocation number ks[i]. Concurrent callers
      write their OPENs in any order, and a failed write leaves a gap; but no
      two numbers are a multiple of 2^31 apart. */
  ghost predicate AllocatedAs(ids: seq<Uint32>, ks: seq<nat>) {
    && |ids| == |ks|
    && (forall i :: 0 <= i < |ids| ==> ids[i] == ClientId(ks[i]))
    && (forall i, j :: 0 <= i < j < |ks| ==> ks[i] % 0x8000_0000 != ks[j] % 0x8000_0000)
  }

  /** With ids from newClientStream, in whatever order and with whatever gaps the OPENs
      arrive, every deferred remove of every interleaving hits its own stream, as
      long as no two allocation numbers collide modulo 2^31. */
  lemma ClientIdsKeepRemovesOwn(maxStreams: int, es: seq<Event>, ks: seq<nat>)
    requires Run(INIT, maxStreams, es).Some? && AllocatedAs(Opens(es), ks)
    ensures OwnThroughout(INIT, maxStreams, es)
  {
    var ids := Opens(es);
    forall i, j | 0 <= i < j < |ids| ensures ids[i] != ids[j] {
      ClientIdsCollideIff(ks[i], ks[j]);
    }
    DistinctOpensReuseFree(INIT, maxStreams, es, {});
    OwnRemovesIff(INIT, maxStreams, es);
  }

  /** The failing side is reached: the peer ends stream 1 and reuses its id while the first
      handler still runs, and that handler's remove would hit the second stream. */
  lemma ReuseHappens(maxStreams: int) returns (es: seq<Event>)
    ensures Run(INIT, maxStreams, es).Some? && !OwnThroughout(INIT, maxStreams, es)
  {
    var one := Server(map[1 := 0], map[0 := 1], 1, LIdle);
    var off := one.(registry := map[]);
    var two := Server(map[1 := 1], map[0 := 1, 1 := 1], 2, LIdle);
    assert !OwnRemoves(two) by { assert 0 in two.running; }
    es := OpenOne(off, two, maxStreams, []);
    es := Prepend(one, Terminated(1), off, maxStreams, es);
    es := OpenOne(INIT, one, maxStreams, es);
  }

  lemma Prepend(s: Server, e: Event, t: Server, maxStreams: int, rest: seq<Event>) returns (es: seq<Event>)
    requires Step(s, maxStreams, e) == Some(t) && Run(t, maxStreams, rest).Some?
    requires !OwnThroughout(t, maxStreams, rest)
    ensures Run(s, maxStreams, es).Some? && !OwnThroughout(s, maxStreams, es)
  {
    es := [e] + rest;
    assert es[1..] == rest;
  }

  /** The three sections that register stream 1. */
  lemma OpenOne(s: Server, t: Server, maxStreams: int, rest: seq<Event>) returns (es: seq<Event>)
    requires s.pc.LIdle? && s.registry == map[] && t == DoInsert(s.(pc := CapChecked(1)))
    requires Run(t, maxStreams, rest).Some? && !OwnThroughout(t, maxStreams, rest)
    ensures Run(s, maxStreams, es).Some? && !OwnThroughout(s, maxStreams, es)
  {
    var (a, b) := (s.(pc := DupChecked(1)), s.(pc := CapChecked(1)));
    es := Prepend(b, Insert, t, maxStreams, rest);
    es := Prepend(a, CapCheck, b, maxStreams, es);
    es := Prepend(s, OpenArrives(1), a, maxStreams, es);
  }
}
