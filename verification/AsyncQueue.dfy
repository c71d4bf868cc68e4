/** The TypeScript AsyncQueue (queue.ts): synchronous pushes, asynchronous
    pulls. A pull is identified by its ticket, its position among all pulls;
    `settled` records how each promise was resolved or rejected. */
module Queues {
  import opened Frames

  datatype Outcome<+T> = Value(v: T) | Done | Rejected(why: Status)

  datatype Queue<T> = Queue(
    values: seq<T>,
    waiters: seq<nat>,
    ended: bool,
    error: Option<Status>,
    pulls: nat,
    settled: map<nat, Outcome<T>>)

  const DEFAULT_ERROR := Status(2, "AsyncQueue failed")

  function Empty<T>(): Queue<T> { Queue([], [], false, None, 0, map[]) }

  predicate Terminated<T>(q: Queue<T>) { q.ended || q.error.Some? }

  /** Every listed waiter is settled the same way. */
  function SettleAll<T>(m: map<nat, Outcome<T>>, waiters: seq<nat>, o: Outcome<T>): map<nat, Outcome<T>>
    decreases |waiters|
  {
    if waiters == [] then m else SettleAll(m[waiters[0] := o], waiters[1..], o)
  }

  lemma {:induction false} SettleAllMeans<T>(m: map<nat, Outcome<T>>, waiters: seq<nat>, o: Outcome<T>)
    ensures forall k: nat :: k in SettleAll(m, waiters, o) <==> k in m || k in waiters
    ensures forall k: nat :: k in waiters ==> SettleAll(m, waiters, o)[k] == o
    ensures forall k: nat :: k in m && k !in waiters ==> SettleAll(m, waiters, o)[k] == m[k]
    decreases |waiters|
  {
    if waiters != [] {
      assert waiters == [waiters[0]] + waiters[1..];
      SettleAllMeans(m[waiters[0] := o], waiters[1..], o);
    }
  }

  /** A waiting pull is served ahead of buffering; late pushes are ignored. */
  function Pushed<T>(q: Queue<T>, v: T): Queue<T> {
    if Terminated(q) then q
    else if q.waiters != [] then q.(waiters := q.waiters[1..], settled := q.settled[q.waiters[0] := Value(v)])
    else q.(values := q.values + [v])
  }

  function Finished<T>(q: Queue<T>): Queue<T> {
    if Terminated(q) then q
    else q.(ended := true, waiters := [], settled := SettleAll(q.settled, q.waiters, Done))
  }

  /** Only an earlier failure stops it: failing an ended queue takes effect. */
  function FailedWith<T>(q: Queue<T>, why: Option<Status>): Queue<T> {
    if q.error.Some? then q
    else
      var e := if why.Some? then why.value else DEFAULT_ERROR;
      q.(error := Some(e), waiters := [], settled := SettleAll(q.settled, q.waiters, Rejected(e)))
  }

  /** Buffered values first, then the error, then the end; otherwise wait. */
  function Pulled<T>(q: Queue<T>): Queue<T> {
    var n := q.pulls;
    if q.values != [] then
      q.(pulls := n + 1, values := q.values[1..], settled := q.settled[n := Value(q.values[0])])
    else if q.error.Some? then q.(pulls := n + 1, settled := q.settled[n := Rejected(q.error.value)])
    else if q.ended then q.(pulls := n + 1, settled := q.settled[n := Done])
    else q.(pulls := n + 1, waiters := q.waiters + [n])
  }

  /** The queue object: arrays shifted in place, waiters drained by loops. */
  class AsyncQueue<T> {
    var values: seq<T>
    var waiters: seq<nat>
    var ended: bool
    var error: Option<Status>
    var pulls: nat
    var settled: map<nat, Outcome<T>>

    ghost function State(): Queue<T>
      reads this
    {
      Queue(values, waiters, ended, error, pulls, settled)
    }

    constructor ()
      ensures State() == Empty()
    {
      values, waiters, ended, error, pulls, settled := [], [], false, None, 0, map[];
    }

    method PushValue(v: T)
      modifies this
      ensures State() == Pushed(old(State()), v)
    {
      if ended || error.Some? { return; }
      if |waiters| > 0 {
        var waiter := waiters[0];
        waiters := waiters[1..];
        settled := settled[waiter := Value(v)];
        return;
      }
      values := values + [v];
    }

    method Finish()
      modifies this
      ensures State() == Finished(old(State()))
    {
      if ended || error.Some? { return; }
      ended := true;
      Settle(Done);
    }

    method Break(why: Option<Status>)
      modifies this
      ensures State() == FailedWith(old(State()), why)
    {
      if error.Some? { return; }
      var e := if why.Some? then why.value else DEFAULT_ERROR;
      error := Some(e);
      Settle(Rejected(e));
    }

    /** The drain loop of end() and fail(). */
    method Settle(o: Outcome<T>)
      modifies this`waiters, this`settled
      ensures waiters == [] && settled == SettleAll(old(settled), old(waiters), o)
    {
      while |waiters| > 0
        invariant SettleAll(settled, waiters, o) == SettleAll(old(settled), old(waiters), o)
        decreases |waiters|
      {
        var waiter := waiters[0];
        waiters := waiters[1..];
        settled := settled[waiter := o];
      }
    }

    method Take() returns (ticket: nat)
      modifies this
      ensures State() == Pulled(old(State())) && ticket == old(pulls)
    {
      ticket := pulls;
      pulls := pulls + 1;
      if |values| > 0 {
        settled := settled[ticket := Value(values[0])];
        values := values[1..];
      } else if error.Some? {
        settled := settled[ticket := Rejected(error.value)];
      } else if ended {
        settled := settled[ticket := Done];
      } else {
        waiters := waiters + [ticket];
      }
    }

    /** The object follows the schedule functions event by event. */
    method Dispatch(e: Event<T>)
      modifies this
      ensures State() == Step(old(State()), e)
    {
      match e
      case DoPush(v) => PushValue(v);
      case DoPull => var _ := Take();
      case DoEnd => Finish();
      case DoFail(why) => Break(why);
    }

    /** Whole schedules: the object ends up where the functions say. */
    method Replay(es: seq<Event<T>>)
      requires State() == Empty()
      modifies this
      ensures State() == Run(es)
    {
      for i := 0 to |es|
        invariant State() == Run(es[..i])
      {
        Dispatch(es[i]);
        assert es[..i + 1][..i] == es[..i];
      }
      assert es[..|es|] == es;
    }
  }

  // ---- schedules ----

  datatype Event<+T> = DoPush(v: T) | DoPull | DoEnd | DoFail(why: Option<Status>)

  function Step<T>(q: Queue<T>, e: Event<T>): Queue<T> {
    match e
    case DoPush(v) => Pushed(q, v)
    case DoPull => Pulled(q)
    case DoEnd => Finished(q)
    case DoFail(why) => FailedWith(q, why)
  }

  function Run<T>(es: seq<Event<T>>): Queue<T> {
    if es == [] then Empty() else Step(Run(es[..|es| - 1]), es[|es| - 1])
  }

  /** How the producer side finished. */
  datatype Terminal = Running | EndedClean | Broken(why: Status)

  function NextTerminal<T>(t: Terminal, e: Event<T>): Terminal {
    if e.DoFail? && !t.Broken? then Broken(if e.why.Some? then e.why.value else DEFAULT_ERROR)
    else if e.DoEnd? && t.Running? then EndedClean
    else t
  }

  function NextAccepted<T>(accepted: seq<T>, t: Terminal, e: Event<T>): seq<T> {
    if e.DoPush? && t.Running? then accepted + [e.v] else accepted
  }

  function NextPulls<T>(n: nat, e: Event<T>): nat { if e.DoPull? then n + 1 else n }

  /** The terminal in force after a schedule. */
  function TerminalOf<T>(es: seq<Event<T>>): Terminal {
    if es == [] then Running else NextTerminal(TerminalOf(es[..|es| - 1]), es[|es| - 1])
  }

  /** The pushes before any terminal, in order. */
  function Accepted<T>(es: seq<Event<T>>): seq<T> {
    if es == [] then []
    else NextAccepted(Accepted(es[..|es| - 1]), TerminalOf(es[..|es| - 1]), es[|es| - 1])
  }

  function Pulls<T>(es: seq<Event<T>>): nat {
    if es == [] then 0 else NextPulls(Pulls(es[..|es| - 1]), es[|es| - 1])
  }

  /** A failure after a clean end finds no pull that the end has settled already. */
  predicate FailsInTime<T>(es: seq<Event<T>>) {
    es != [] ==>
      && FailsInTime(es[..|es| - 1])
      && InTime(Accepted(es[..|es| - 1]), TerminalOf(es[..|es| - 1]), Pulls(es[..|es| - 1]), es[|es| - 1])
  }

  predicate InTime<T>(accepted: seq<T>, t: Terminal, n: nat, e: Event<T>) {
    e.DoFail? && t.EndedClean? ==> n <= |accepted|
  }

  /** What pull number k is owed, as a function of the producer side alone. */
  function Owed<T>(accepted: seq<T>, t: Terminal, k: nat): Option<Outcome<T>> {
    if k < |accepted| then Some(Value(accepted[k]))
    else match t
      case Running => None
      case EndedClean => Some(Done)
      case Broken(why) => Some(Rejected(why))
  }

  function Tickets(lo: nat, hi: nat): seq<nat> { if lo < hi then seq(hi - lo, i requires 0 <= i => lo + i) else [] }

  /** The only state a queue can be in, given what was pushed, how it finished
      and how many pulls were made. */
  ghost predicate Canonical<T>(q: Queue<T>, accepted: seq<T>, t: Terminal, n: nat) {
    && q.pulls == n
    && q.values == (if n <= |accepted| then accepted[n..] else [])
    && q.waiters == (if t.Running? then Tickets(|accepted|, n) else [])
    && (t.EndedClean? ==> q.ended) && (q.ended ==> !t.Running?)
    && q.error == (if t.Broken? then Some(t.why) else None)
    && (forall k: nat :: k in q.settled <==> k < n && Owed(accepted, t, k).Some?)
    && (forall k: nat :: k in q.settled ==> Owed(accepted, t, k) == Some(q.settled[k]))
  }

  lemma PushCanonical<T>(q: Queue<T>, accepted: seq<T>, t: Terminal, n: nat, v: T)
    requires Canonical(q, accepted, t, n)
    ensures Canonical(Pushed(q, v), if t.Running? then accepted + [v] else accepted, t, n)
  {
  }

  lemma EndCanonical<T>(q: Queue<T>, accepted: seq<T>, t: Terminal, n: nat)
    requires Canonical(q, accepted, t, n)
    ensures Canonical(Finished(q), accepted, if t.Running? then EndedClean else t, n)
  {
    if t.Running? {
      WaitersAreTheUnserved(q, accepted, n);
      SettleAllMeans(q.settled, q.waiters, Done);
    }
  }

  lemma FailCanonical<T>(q: Queue<T>, accepted: seq<T>, t: Terminal, n: nat, why: Option<Status>)
    requires Canonical(q, accepted, t, n) && (t.EndedClean? ==> n <= |accepted|)
    ensures Canonical(FailedWith(q, why), accepted,
                      if t.Broken? then t else Broken(if why.Some? then why.value else DEFAULT_ERROR), n)
  {
    if !t.Broken? {
      if t.Running? { WaitersAreTheUnserved(q, accepted, n); }
      SettleAllMeans(q.settled, q.waiters, Rejected(if why.Some? then why.value else DEFAULT_ERROR));
    }
  }

  lemma WaitersAreTheUnserved<T>(q: Queue<T>, accepted: seq<T>, n: nat)
    requires Canonical(q, accepted, Running, n)
    ensures forall k: nat :: k in q.waiters <==> |accepted| <= k < n
  {
    forall k: nat ensures k in q.waiters <==> |accepted| <= k < n {
      if |accepted| <= k < n { assert q.waiters[k - |accepted|] == k; }
    }
  }

  lemma PullCanonical<T>(q: Queue<T>, accepted: seq<T>, t: Terminal, n: nat)
    requires Canonical(q, accepted, t, n)
    ensures Canonical(Pulled(q), accepted, t, n + 1)
  {
  }

  lemma StepCanonical<T>(q: Queue<T>, accepted: seq<T>, t: Terminal, n: nat, e: Event<T>)
    requires Canonical(q, accepted, t, n) && InTime(accepted, t, n, e)
    ensures Canonical(Step(q, e), NextAccepted(accepted, t, e), NextTerminal(t, e), NextPulls(n, e))
  {
    match e
    case DoPush(v) => PushCanonical(q, accepted, t, n, v);
    case DoPull => PullCanonical(q, accepted, t, n);
    case DoEnd => EndCanonical(q, accepted, t, n);
    case DoFail(why) => FailCanonical(q, accepted, t, n, why);
  }

  /** Schedule independence: whatever the interleaving of pushes, pulls and terminals in
      time, the queue is in the state the producer side and the number of pulls
      determine. */
  lemma {:induction false} ScheduleIndependent<T>(es: seq<Event<T>>)
    requires FailsInTime(es)
    ensures Canonical(Run(es), Accepted(es), TerminalOf(es), Pulls(es))
  {
    if es != [] {
      var before := es[..|es| - 1];
      ScheduleIndependent(before);
      StepCanonical(Run(before), Accepted(before), TerminalOf(before), Pulls(before), es[|es| - 1]);
    }
  }

  /** The k-th pull gets the k-th accepted push, or the terminal result if there are fewer. */
  ghost predicate PullsGetPushes<T>(es: seq<Event<T>>) {
    forall k: nat :: k < Pulls(es) ==>
      Owed(Accepted(es), TerminalOf(es), k) == if k in Run(es).settled then Some(Run(es).settled[k]) else None
  }

  /** A pull settled as done, on a queue that has failed since. */
  ghost predicate DoneTooEarly<T>(q: Queue<T>, accepted: seq<T>, t: Terminal, k: nat) {
    && t.Broken? && q.error.Some? && q.waiters == [] && |accepted| <= k < q.pulls
    && k in q.settled && q.settled[k] == Done
  }

  lemma EarlyStaysEarly<T>(q: Queue<T>, accepted: seq<T>, t: Terminal, k: nat, e: Event<T>)
    requires DoneTooEarly(q, accepted, t, k)
    ensures DoneTooEarly(Step(q, e), NextAccepted(accepted, t, e), NextTerminal(t, e), k)
  {
  }

  lemma FailsTooLate<T>(q: Queue<T>, accepted: seq<T>, t: Terminal, n: nat, e: Event<T>)
    requires Canonical(q, accepted, t, n) && !InTime(accepted, t, n, e)
    ensures DoneTooEarly(Step(q, e), NextAccepted(accepted, t, e), NextTerminal(t, e), |accepted|)
  {
    assert |accepted| in q.settled;
  }

  lemma {:induction false} LateFailureShows<T>(es: seq<Event<T>>) returns (k: nat)
    requires !FailsInTime(es)
    ensures DoneTooEarly(Run(es), Accepted(es), TerminalOf(es), k) && k < Pulls(es)
  {
    var (before, e) := (es[..|es| - 1], es[|es| - 1]);
    PullsCounted(es);
    if FailsInTime(before) {
      ScheduleIndependent(before);
      FailsTooLate(Run(before), Accepted(before), TerminalOf(before), Pulls(before), e);
      k := |Accepted(before)|;
    } else {
      k := LateFailureShows(before);
      EarlyStaysEarly(Run(before), Accepted(before), TerminalOf(before), k, e);
    }
  }

  lemma {:induction false} PullsCounted<T>(es: seq<Event<T>>)
    ensures Run(es).pulls == Pulls(es)
  {
    if es != [] { PullsCounted(es[..|es| - 1]); }
  }

  /** The exact condition: over every schedule, all pulls get what they are owed if and only
      if no failure comes after a clean end has settled a pull. */
  lemma PullsGetPushesIff<T>(es: seq<Event<T>>)
    ensures PullsGetPushes(es) <==> FailsInTime(es)
  {
    if FailsInTime(es) {
      ScheduleIndependent(es);
    } else {
      var k := LateFailureShows(es);
      assert Owed(Accepted(es), TerminalOf(es), k) != Some(Run(es).settled[k]);
    }
  }

  /** On every schedule at all: buffered values and waiting pulls exclude each other. */
  lemma {:induction false} NeverBoth<T>(es: seq<Event<T>>)
    ensures Run(es).values == [] || Run(es).waiters == []
  {
    if es != [] { NeverBoth(es[..|es| - 1]); }
  }

  /** The failing side is reached: an ended queue answers a pull, and then fails. */
  lemma LateFailureHappens<T>()
    ensures !FailsInTime<T>([DoEnd, DoPull, DoFail(None)]) && !PullsGetPushes<T>([DoEnd, DoPull, DoFail(None)])
  {
    var none: seq<Event<T>> := [];
    var (one, two, all) := (none + [DoEnd], none + [DoEnd] + [DoPull], none + [DoEnd] + [DoPull] + [DoFail(None)]);
    assert all == [DoEnd, DoPull, DoFail(None)];
    After(none, DoEnd);
    After(one, DoPull);
    After(two, DoFail(None));
    PullsGetPushesIff(all);
  }

  lemma After<T>(es: seq<Event<T>>, e: Event<T>)
    ensures TerminalOf(es + [e]) == NextTerminal(TerminalOf(es), e) && Pulls(es + [e]) == NextPulls(Pulls(es), e)
    ensures Accepted(es + [e]) == NextAccepted(Accepted(es), TerminalOf(es), e)
    ensures FailsInTime(es + [e]) ==> InTime(Accepted(es), TerminalOf(es), Pulls(es), e)
  {
    assert (es + [e])[..|es|] == es;
  }
}
