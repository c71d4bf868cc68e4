/** Many streams over one pair of FIFO wires, as on a real connection: frames of all
    streams queue behind each other, the read loop hands each one to the stream
    it names, and the credit comes back on one wire. Each endpoint does what
    it does in CreditFlow; stream by stream, every run is a CreditFlow run. */
module SharedWire {
  import opened Frames
  import opened GoStream
  import opened CreditFlow

  datatype Tagged<T> = Tagged(id: nat, item: T)

  datatype Windows = Windows(ws: int, wr: int)

  /** The endpoints of every stream, their own wires empty, and the shared wires. */
  datatype Net = Net(links: map<nat, Link>, wire: seq<Tagged<Frame>>, back: seq<Tagged<nat>>)

  datatype NetEvent =
    | At(id: nat, e: Event)    // any step of one endpoint
    | Carry                    // the frame at the head reaches its stream
    | Return                   // the credit at the head reaches its stream

  ghost predicate Sane(w: map<nat, Windows>) { forall id :: id in w ==> w[id].ws > 0 && w[id].wr > 0 }

  ghost function InitNet(w: map<nat, Windows>): Net
    requires Sane(w)
  {
    Net(map id | id in w :: Init(w[id].ws, w[id].wr), [], [])
  }

  function Tag<T>(id: nat, items: seq<T>): seq<Tagged<T>> {
    if items == [] then [] else [Tagged(id, items[0])] + Tag(id, items[1..])
  }

  /** Both wires are bounded channels shared by all streams. */
  predicate Room(n: Net, t: Link) {
    (t.wire == [] || |n.wire| < WIRE_CAPACITY) && (t.back == [] || |n.back| < WIRE_CAPACITY)
  }

  /** What the endpoint put on its wires goes to the end of the shared ones. */
  function Local(n: Net, id: nat, t: Link): Net {
    Net(n.links[id := t.(wire := [], back := [])], n.wire + Tag(id, t.wire), n.back + Tag(id, t.back))
  }

  predicate CanLocal(n: Net, id: nat, e: Event) {
    && id in n.links && !e.Arrive? && !e.Credit?
    && Step(n.links[id], e).Some? && Room(n, Step(n.links[id], e).value)
  }

  predicate CanCarry(n: Net) { n.wire != [] && n.wire[0].id in n.links }

  function DoCarry(n: Net): Net
    requires CanCarry(n)
  {
    var (id, f) := (n.wire[0].id, n.wire[0].item);
    n.(wire := n.wire[1..], links := n.links[id := DoArrive(n.links[id].(wire := [f]))])
  }

  predicate CanReturn(n: Net) { n.back != [] && n.back[0].id in n.links }

  function DoReturn(n: Net): Net
    requires CanReturn(n)
  {
    var (id, d) := (n.back[0].id, n.back[0].item);
    n.(back := n.back[1..], links := n.links[id := DoCredit(n.links[id].(back := [d]))])
  }

  /** None when the step is not enabled. */
  function NetStep(n: Net, e: NetEvent): Option<Net> {
    match e
    case At(id, le) => if CanLocal(n, id, le) then Some(Local(n, id, Step(n.links[id], le).value)) else None
    case Carry => if CanCarry(n) then Some(DoCarry(n)) else None
    case Return => if CanReturn(n) then Some(DoReturn(n)) else None
  }

  function NetRun(n: Net, es: seq<NetEvent>): Option<Net>
    decreases |es|
  {
    if es == [] then Some(n)
    else
      var t := NetStep(n, es[0]);
      if t.None? then None else NetRun(t.value, es[1..])
  }

  // ---- one stream's share of the wires ----

  function Mine<T>(ts: seq<Tagged<T>>, id: nat): seq<T> {
    if ts == [] then [] else (if ts[0].id == id then [ts[0].item] else []) + Mine(ts[1..], id)
  }

  lemma {:induction false} MineConcat<T>(a: seq<Tagged<T>>, b: seq<Tagged<T>>, id: nat)
    ensures Mine(a + b, id) == Mine(a, id) + Mine(b, id)
  {
    if a == [] {
      assert a + b == b;
    } else {
      assert (a + b)[0] == a[0] && (a + b)[1..] == a[1..] + b;
      MineConcat(a[1..], b, id);
      var head := if a[0].id == id then [a[0].item] else [];
      assert head + (Mine(a[1..], id) + Mine(b, id)) == (head + Mine(a[1..], id)) + Mine(b, id);
    }
  }

  lemma {:induction false} MineTag<T>(owner: nat, items: seq<T>, id: nat)
    ensures Mine(Tag(owner, items), id) == if id == owner then items else []
  {
    if items != [] {
      assert Tag(owner, items)[1..] == Tag(owner, items[1..]);
      MineTag(owner, items[1..], id);
    }
  }

  lemma {:induction false} MineLength<T>(ts: seq<Tagged<T>>, id: nat)
    ensures |Mine(ts, id)| <= |ts|
    ensures (forall i :: 0 <= i < |ts| ==> ts[i].id == id) ==> |Mine(ts, id)| == |ts|
  {
    if ts != [] { MineLength(ts[1..], id); }
  }

  /** The stream as if it had its wires to itself. */
  function Proj(n: Net, id: nat): Link
    requires id in n.links
  {
    n.links[id].(wire := Mine(n.wire, id), back := Mine(n.back, id))
  }

  /** Endpoints hold nothing on wires of their own. */
  ghost predicate Bare(n: Net) { forall id :: id in n.links ==> n.links[id].wire == [] && n.links[id].back == [] }

  // ---- an endpoint does not look at the wires behind the head ----

  lemma WiresDoNotMatter(l: Link, e: Event, wire: seq<Frame>, back: seq<nat>)
    requires l.wire == [] && l.back == [] && !e.Arrive? && !e.Credit? && Step(l, e).Some?
    requires Step(l, e).value.wire != [] ==> |wire| < WIRE_CAPACITY
    requires Step(l, e).value.back != [] ==> |back| < WIRE_CAPACITY
    ensures var t := Step(l, e).value;
            Step(l.(wire := wire, back := back), e) == Some(t.(wire := wire + t.wire, back := back + t.back))
  {
    assert wire + [] == wire && back + [] == back;
    assert forall f: Frame :: l.wire + [f] == [f];
    assert forall d: nat :: l.back + [d] == [d];
  }

  lemma WiresDoNotEnable(l: Link, e: Event, wire: seq<Frame>, back: seq<nat>)
    requires l.wire == [] && l.back == [] && !e.Arrive? && !e.Credit?
    requires Step(l.(wire := wire, back := back), e).Some?
    ensures Step(l, e).Some?
    ensures Step(l, e).value.wire != [] ==> |wire| < WIRE_CAPACITY
    ensures Step(l, e).value.back != [] ==> |back| < WIRE_CAPACITY
  {
  }

  lemma ArriveHead(l: Link, f: Frame, wire: seq<Frame>, back: seq<nat>)
    requires l.wire == [] && l.back == []
    ensures DoArrive(l.(wire := [f] + wire, back := back))
            == DoArrive(l.(wire := [f])).(wire := wire, back := back)
    ensures DoArrive(l.(wire := [f])).wire == [] && DoArrive(l.(wire := [f])).back == []
  {
    assert ([f] + wire)[1..] == wire;
  }

  lemma CreditHead(l: Link, d: nat, wire: seq<Frame>, back: seq<nat>)
    requires l.wire == [] && l.back == []
    ensures DoCredit(l.(wire := wire, back := [d] + back))
            == DoCredit(l.(back := [d])).(wire := wire, back := back)
    ensures DoCredit(l.(back := [d])).wire == [] && DoCredit(l.(back := [d])).back == []
  {
    assert ([d] + back)[1..] == back;
  }

  // ---- every run projects ----

  /** The stream a step is about, and what it is to that stream. */
  function About(n: Net, e: NetEvent): nat
    requires NetStep(n, e).Some?
  {
    match e
    case At(id, _) => id
    case Carry => n.wire[0].id
    case Return => n.back[0].id
  }

  function Seen(e: NetEvent): Event {
    match e
    case At(_, le) => le
    case Carry => Arrive
    case Return => Credit
  }

  lemma LocalProjects(n: Net, owner: nat, e: Event, id: nat)
    requires Bare(n) && CanLocal(n, owner, e) && id in n.links
    ensures var t := Local(n, owner, Step(n.links[owner], e).value);
            && Bare(t)
            && (id != owner ==> Proj(t, id) == Proj(n, id))
            && (id == owner ==> Step(Proj(n, id), e) == Some(Proj(t, id)))
  {
    var l := Step(n.links[owner], e).value;
    MineConcat(n.wire, Tag(owner, l.wire), id);
    MineConcat(n.back, Tag(owner, l.back), id);
    MineTag(owner, l.wire, id);
    MineTag(owner, l.back, id);
    MineLength(n.wire, id);
    MineLength(n.back, id);
    if id == owner { WiresDoNotMatter(n.links[id], e, Mine(n.wire, id), Mine(n.back, id)); }
  }

  lemma CarryProjects(n: Net, id: nat)
    requires Bare(n) && CanCarry(n) && id in n.links
    ensures Bare(DoCarry(n))
    ensures id != n.wire[0].id ==> Proj(DoCarry(n), id) == Proj(n, id)
    ensures id == n.wire[0].id ==> Step(Proj(n, id), Arrive) == Some(Proj(DoCarry(n), id))
  {
    ArriveHead(n.links[n.wire[0].id], n.wire[0].item, Mine(n.wire[1..], n.wire[0].id), Mine(n.back, n.wire[0].id));
  }

  lemma ReturnProjects(n: Net, id: nat)
    requires Bare(n) && CanReturn(n) && id in n.links
    ensures Bare(DoReturn(n))
    ensures id != n.back[0].id ==> Proj(DoReturn(n), id) == Proj(n, id)
    ensures id == n.back[0].id ==> Step(Proj(n, id), Credit) == Some(Proj(DoReturn(n), id))
  {
    CreditHead(n.links[n.back[0].id], n.back[0].item, Mine(n.wire, n.back[0].id), Mine(n.back[1..], n.back[0].id));
  }

  /** A step is a step of the stream it is about, and nothing to the others. */
  lemma StepProjects(n: Net, e: NetEvent, id: nat)
    requires Bare(n) && NetStep(n, e).Some? && id in n.links
    ensures var t := NetStep(n, e).value;
            && Bare(t) && t.links.Keys == n.links.Keys
            && (id != About(n, e) ==> Proj(t, id) == Proj(n, id))
            && (id == About(n, e) ==> Step(Proj(n, id), Seen(e)) == Some(Proj(t, id)))
  {
    match e
    case At(owner, le) => LocalProjects(n, owner, le, id);
    case Carry => CarryProjects(n, id);
    case Return => ReturnProjects(n, id);
  }

  ghost predicate NetWithin(es: seq<NetEvent>, m: nat) {
    forall i :: 0 <= i < |es| && es[i].At? && es[i].e.Reserve? ==> |es[i].e.p| <= m
  }

  /** Stream by stream, a run over shared wires is a run of a link of its own. */
  lemma {:induction false} RunProjects(n: Net, es: seq<NetEvent>, id: nat, m: nat) returns (les: seq<Event>)
    requires Bare(n) && NetRun(n, es).Some? && id in n.links && NetWithin(es, m)
    ensures NetRun(n, es).value.links.Keys == n.links.Keys && Bare(NetRun(n, es).value)
    ensures Run(Proj(n, id), les) == Some(Proj(NetRun(n, es).value, id)) && Within(les, m)
    decreases |es|
  {
    if es == [] {
      les := [];
    } else {
      StepProjects(n, es[0], id);
      var t := NetStep(n, es[0]).value;
      les := RunProjects(t, es[1..], id, m);
      if id == About(n, es[0]) {
        RunCons(Proj(n, id), Seen(es[0]), Proj(t, id), les);
        les := [Seen(es[0])] + les;
      }
    }
  }

  ghost predicate NetReaches(w: map<nat, Windows>, es: seq<NetEvent>, n: Net) {
    Sane(w) && NetRun(InitNet(w), es) == Some(n)
  }

  lemma NetReachesLink(w: map<nat, Windows>, es: seq<NetEvent>, n: Net, id: nat, m: nat) returns (les: seq<Event>)
    requires NetReaches(w, es, n) && id in w && NetWithin(es, m)
    ensures id in n.links && Reaches(w[id].ws, w[id].wr, les, Proj(n, id)) && Within(les, m)
  {
    les := RunProjects(InitNet(w), es, id, m);
    assert Proj(InitNet(w), id) == Init(w[id].ws, w[id].wr);
  }

  /** The largest payload of a run. */
  function Largest(es: seq<NetEvent>): nat {
    if es == [] then 0
    else
      var (rest, k) := (Largest(es[1..]), if es[0].At? && es[0].e.Reserve? then |es[0].e.p| else 0);
      if k > rest then k else rest
  }

  lemma {:induction false} LargestBounds(es: seq<NetEvent>)
    ensures NetWithin(es, Largest(es))
  {
    if es != [] {
      LargestBounds(es[1..]);
      assert forall i :: 0 < i < |es| ==> es[i] == es[1..][i - 1];
    }
  }

  /** On shared wires, whatever the other streams do: each stream's receives are a prefix of
      its sends, its EOF and its final status come only after its payloads. */
  lemma SharedDelivery(w: map<nat, Windows>, es: seq<NetEvent>, n: Net, id: nat)
    requires NetReaches(w, es, n) && id in w && id in n.links
    requires w[id].ws <= w[id].wr + 1 || !n.links[id].overflowed
    ensures var s := n.links[id];
            && s.got <= s.sent
            && (CanReportEof(s) ==>
                  && s.closedAt.Some? && s.closedAt.value <= |s.sent| && s.sent[..s.closedAt.value] <= s.got
                  && (s.closedAt.value == |s.sent| ==> s.got == s.sent))
            && (CanReportEnd(s) ==> s.got == s.sent && RecvEndedResult(s.rcv) == StatusOutcome(s.snd.endSt))
  {
    LargestBounds(es);
    var les := NetReachesLink(w, es, n, id, Largest(es));
    DeliveryInOrder(w[id].ws, w[id].wr, les, Proj(n, id));
  }

  /** ... and each stream's window is conserved. */
  lemma SharedConservation(w: map<nat, Windows>, es: seq<NetEvent>, n: Net, id: nat, m: nat)
    requires NetReaches(w, es, n) && id in w && id in n.links && !n.links[id].overflowed
    requires NetWithin(es, m) && NoWrap(w[id].ws, w[id].wr, m)
    ensures var s := n.links[id];
            s.snd.sendWindow
            + (if s.reserved.Some? then |s.reserved.value| else 0) + TotalBytes(Messages(Mine(n.wire, id)))
            + TotalBytes(s.rcv.recvItems)
            + PcBytes(s.pc) + s.rcv.pendingCredit + Sum(Mine(n.back, id)) == w[id].ws
  {
    var les := NetReachesLink(w, es, n, id, m);
    Conservation(w[id].ws, w[id].wr, les, Proj(n, id), m);
  }

  // ---- every link run happens on the shared wires ----

  /** Only this stream is on the wires. */
  ghost predicate Solo(n: Net, id: nat) {
    && id in n.links
    && (forall i :: 0 <= i < |n.wire| ==> n.wire[i].id == id)
    && (forall i :: 0 <= i < |n.back| ==> n.back[i].id == id)
  }

  lemma {:induction false} TagOwner<T>(id: nat, items: seq<T>)
    ensures |Tag(id, items)| == |items| && forall i :: 0 <= i < |items| ==> Tag(id, items)[i].id == id
  {
    if items != [] { TagOwner(id, items[1..]); }
  }

  function Lifted(id: nat, e: Event): NetEvent {
    if e.Arrive? then Carry else if e.Credit? then Return else At(id, e)
  }

  lemma SoloStep(n: Net, id: nat, e: Event)
    requires Bare(n) && Solo(n, id) && Step(Proj(n, id), e).Some?
    ensures NetStep(n, Lifted(id, e)).Some?
    ensures About(n, Lifted(id, e)) == id
  {
    MineLength(n.wire, id);
    MineLength(n.back, id);
    if !e.Arrive? && !e.Credit? { WiresDoNotEnable(n.links[id], e, Mine(n.wire, id), Mine(n.back, id)); }
  }

  lemma SoloStays(n: Net, id: nat, e: NetEvent)
    requires Solo(n, id) && NetStep(n, e).Some? && About(n, e) == id
    ensures Solo(NetStep(n, e).value, id) && NetStep(n, e).value.links - {id} == n.links - {id}
  {
    if e.At? {
      TagOwner(id, Step(n.links[id], e.e).value.wire);
      TagOwner(id, Step(n.links[id], e.e).value.back);
    }
  }

  lemma {:induction false} SoloRun(n: Net, id: nat, les: seq<Event>, m: nat) returns (es: seq<NetEvent>, t: Net)
    requires Bare(n) && Solo(n, id) && Run(Proj(n, id), les).Some? && Within(les, m)
    ensures NetRun(n, es) == Some(t) && Bare(t) && Solo(t, id) && NetWithin(es, m)
    ensures Proj(t, id) == Run(Proj(n, id), les).value && t.links - {id} == n.links - {id}
    decreases |les|
  {
    if les == [] {
      es, t := [], n;
    } else {
      var e := Lifted(id, les[0]);
      SoloStep(n, id, les[0]);
      SoloStays(n, id, e);
      StepProjects(n, e, id);
      var rest;
      rest, t := SoloRun(NetStep(n, e).value, id, les[1..], m);
      es := [e] + rest;
      assert es[1..] == rest;
    }
  }

  lemma LinkHappens(w: map<nat, Windows>, id: nat, les: seq<Event>, s: Link, m: nat) returns (es: seq<NetEvent>, n: Net)
    requires Sane(w) && id in w && Reaches(w[id].ws, w[id].wr, les, s) && Within(les, m)
    ensures NetReaches(w, es, n) && Bare(n) && Solo(n, id) && NetWithin(es, m)
    ensures Proj(n, id) == s && n.links - {id} == InitNet(w).links - {id}
  {
    assert Proj(InitNet(w), id) == Init(w[id].ws, w[id].wr);
    es, n := SoloRun(InitNet(w), id, les, m);
  }

  /** The sharp reset bound, stream by stream on shared wires. */
  lemma SharedFalseResetIff(w: map<nat, Windows>, id: nat, m: nat)
    requires Sane(w) && id in w && m > 0
    ensures (exists es, n :: NetWithin(es, m) && NetReaches(w, es, n) && id in n.links && n.links[id].overflowed)
            <==> w[id].ws >= w[id].wr + 2
  {
    FalseResetIff(w[id].ws, w[id].wr, m);
    if w[id].ws >= w[id].wr + 2 {
      var les, s :| Within(les, m) && Reaches(w[id].ws, w[id].wr, les, s) && s.overflowed;
      var es, n := LinkHappens(w, id, les, s, m);
      assert NetWithin(es, m) && NetReaches(w, es, n) && n.links[id].overflowed;
    } else {
      forall es, n | NetWithin(es, m) && NetReaches(w, es, n) && id in n.links ensures !n.links[id].overflowed {
        var les := NetReachesLink(w, es, n, id, m);
        assert Within(les, m) && Reaches(w[id].ws, w[id].wr, les, Proj(n, id));
      }
    }
  }

  // ---- no stream stalls behind another ----

  predicate NetInternal(e: NetEvent) { e.Carry? || e.Return? || (e.At? && Internal(e.e)) }

  ghost predicate NetQuiet(n: Net) { forall e :: NetInternal(e) ==> NetStep(n, e).None? }

  /** A full wire has a head to carry, so nothing is stuck behind other streams: when the
      whole net is quiet, so is every stream. */
  lemma QuietNetQuietLinks(n: Net, id: nat)
    requires NetQuiet(n) && Bare(n) && id in n.links
    requires forall i :: 0 <= i < |n.wire| ==> n.wire[i].id in n.links
    requires forall i :: 0 <= i < |n.back| ==> n.back[i].id in n.links
    ensures n.wire == [] && n.back == [] && Quiet(Proj(n, id))
  {
    assert NetStep(n, Carry).None? && NetStep(n, Return).None?;
    forall e | Internal(e) ensures Step(Proj(n, id), e).None? {
      assert NetInternal(At(id, e)) && NetStep(n, At(id, e)).None?;
      if Step(Proj(n, id), e).Some? && !e.Arrive? && !e.Credit? { EnabledOnEmptyWires(n, id, e); }
    }
  }

  lemma EnabledOnEmptyWires(n: Net, id: nat, e: Event)
    requires Bare(n) && id in n.links && n.wire == [] && n.back == [] && !e.Arrive? && !e.Credit?
    requires Step(Proj(n, id), e).Some?
    ensures NetStep(n, At(id, e)).Some?
  {
    WiresDoNotEnable(n.links[id], e, [], []);
  }

  lemma QuietLinksQuietNet(n: Net)
    requires Bare(n) && n.wire == [] && n.back == [] && forall id :: id in n.links ==> Quiet(Proj(n, id))
    ensures NetQuiet(n)
  {
    forall e | NetInternal(e) ensures NetStep(n, e).None? {
      if e.At? && CanLocal(n, e.id, e.e) {
        assert Step(Proj(n, e.id), e.e).None?;
        LocalProjects(n, e.id, e.e, e.id);
      }
    }
  }

  /** Every frame on the wires belongs to some stream. */
  ghost predicate Addressed(n: Net) {
    && (forall i :: 0 <= i < |n.wire| ==> n.wire[i].id in n.links)
    && (forall i :: 0 <= i < |n.back| ==> n.back[i].id in n.links)
  }

  lemma {:induction false} RunAddressed(n: Net, es: seq<NetEvent>)
    requires Addressed(n) && Bare(n) && NetRun(n, es).Some?
    ensures Addressed(NetRun(n, es).value) && Bare(NetRun(n, es).value)
    decreases |es|
  {
    if es != [] {
      StepAddressed(n, es[0]);
      RunAddressed(NetStep(n, es[0]).value, es[1..]);
    }
  }

  lemma StepAddressed(n: Net, e: NetEvent)
    requires Addressed(n) && Bare(n) && NetStep(n, e).Some?
    ensures Addressed(NetStep(n, e).value) && Bare(NetStep(n, e).value)
  {
    StepProjects(n, e, About(n, e));
    if e.At? {
      TagOwner(e.id, Step(n.links[e.id], e.e).value.wire);
      TagOwner(e.id, Step(n.links[e.id], e.e).value.back);
    }
  }

  /** Stream id is blocked for good while nothing at all is left to do. */
  ghost predicate NetStalled(n: Net, id: nat) {
    && id in n.links && NetQuiet(n)
    && !n.links[id].overflowed && !n.links[id].finished && n.links[id].snd.sendWindow <= 0
  }

  lemma StalledAlone(w: map<nat, Windows>, n: Net, id: nat)
    requires Sane(w) && id in w && Bare(n) && Solo(n, id) && Stalled(Proj(n, id))
    requires n.links - {id} == InitNet(w).links - {id}
    ensures NetStalled(n, id)
  {
    QuietMeans(Proj(n, id));
    MineLength(n.wire, id);
    MineLength(n.back, id);
    forall k | k in n.links ensures Quiet(Proj(n, k)) {
      if k != id {
        assert k in n.links - {id};
        assert n.links[k] == (n.links - {id})[k] == Init(w[k].ws, w[k].wr);
      }
    }
    QuietLinksQuietNet(n);
  }

  lemma StalledLink(w: map<nat, Windows>, es: seq<NetEvent>, n: Net, id: nat, m: nat) returns (les: seq<Event>)
    requires NetReaches(w, es, n) && id in w && NetWithin(es, m) && NetStalled(n, id)
    ensures Within(les, m) && Reaches(w[id].ws, w[id].wr, les, Proj(n, id)) && Stalled(Proj(n, id))
  {
    les := NetReachesLink(w, es, n, id, m);
    RunAddressed(InitNet(w), es);
    QuietNetQuietLinks(n, id);
  }

  /** The sharp stall bound, stream by stream on shared wires: the other streams neither
      cause a stall nor prevent one. */
  lemma SharedStallIff(w: map<nat, Windows>, id: nat, m: nat)
    requires Sane(w) && id in w && m > 0
    ensures (exists es, n :: NetWithin(es, m) && NetReaches(w, es, n) && NetStalled(n, id))
            <==> w[id].ws < Threshold(w[id].wr) || !NoWrap(w[id].ws, w[id].wr, m)
  {
    StallIff(w[id].ws, w[id].wr, m);
    if w[id].ws < Threshold(w[id].wr) || !NoWrap(w[id].ws, w[id].wr, m) {
      var les, s :| Within(les, m) && Reaches(w[id].ws, w[id].wr, les, s) && Stalled(s);
      var es, n := LinkHappens(w, id, les, s, m);
      StalledAlone(w, n, id);
      assert NetWithin(es, m) && NetReaches(w, es, n) && NetStalled(n, id);
    } else {
      forall es, n | NetWithin(es, m) && NetReaches(w, es, n) ensures !NetStalled(n, id) {
        if NetStalled(n, id) { var les := StalledLink(w, es, n, id, m); }
      }
    }
  }

  /** A stall on shared wires is permanent, whatever the other streams do. */
  lemma SharedStalledForever(w: map<nat, Windows>, es: seq<NetEvent>, n: Net, id: nat, rest: seq<NetEvent>, z: Net)
    requires NetReaches(w, es, n) && id in w && NetStalled(n, id) && NetRun(n, rest) == Some(z)
    ensures id in z.links && z.links[id].snd.sendWindow <= 0 && z.links[id].sent == n.links[id].sent
  {
    LargestBounds(es);
    LargestBounds(rest);
    var _ := StalledLink(w, es, n, id, Largest(es));
    RunAddressed(InitNet(w), es);
    var les := RunProjects(n, rest, id, Largest(rest));
    StalledForever(Proj(n, id), les);
  }
}
