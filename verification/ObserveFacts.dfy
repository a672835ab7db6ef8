/** What an observation is, without the order of the pods, and that the order does not matter. */
module ObserveFacts {
  import opened Wrappers
  import opened Observe

  // ----- Sequences up to order ----------------------------------------------------------------------

  function Sum<E>(es: seq<E>, f: E -> int): int {
    if es == [] then 0 else Sum(es[..|es| - 1], f) + f(es[|es| - 1])
  }

  function Select<E>(es: seq<E>, p: E -> bool): seq<E> {
    if es == [] then []
    else
      var rest := Select(es[..|es| - 1], p);
      if p(es[|es| - 1]) then rest + [es[|es| - 1]] else rest
  }

  function Without<E>(es: seq<E>, i: nat): seq<E>
    requires i < |es|
  {
    es[..i] + es[i + 1..]
  }

  lemma {:induction false} SumWithout<E>(es: seq<E>, f: E -> int, i: nat)
    requires i < |es|
    ensures Sum(es, f) == Sum(Without(es, i), f) + f(es[i])
  {
    var n := |es| - 1;
    if i == n {
      assert Without(es, i) == es[..n];
    } else {
      SumWithout(es[..n], f, i);
      assert Without(es, i)[..n - 1] == Without(es[..n], i);
    }
  }

  lemma MultisetWithout<E>(es: seq<E>, i: nat)
    requires i < |es|
    ensures multiset(Without(es, i)) == multiset(es) - multiset{es[i]}
  {
    assert es == es[..i] + [es[i]] + es[i + 1..];
  }

  lemma LastOfMultiset<E>(es: seq<E>)
    requires es != []
    ensures multiset(es[..|es| - 1]) == multiset(es) - multiset{es[|es| - 1]}
  {
    assert es == es[..|es| - 1] + [es[|es| - 1]];
  }

  lemma {:induction false} SumReordered<E>(a: seq<E>, b: seq<E>, f: E -> int)
    requires multiset(a) == multiset(b)
    ensures Sum(a, f) == Sum(b, f)
    decreases |a|
  {
    if a == [] {
      assert |multiset(b)| == 0;
    } else {
      var i := Somewhere(a, b, |a| - 1);
      SumWithout(b, f, i);
      MultisetWithout(b, i);
      LastOfMultiset(a);
      SumReordered(a[..|a| - 1], Without(b, i), f);
    }
  }

  lemma {:induction false} SelectWithout<E>(es: seq<E>, p: E -> bool, i: nat)
    requires i < |es|
    ensures multiset(Select(es, p)) == multiset(Select(Without(es, i), p)) + (if p(es[i]) then multiset{es[i]} else multiset{})
  {
    var n := |es| - 1;
    if i == n {
      assert Without(es, i) == es[..n];
    } else {
      SelectWithout(es[..n], p, i);
      assert Without(es, i)[..n - 1] == Without(es[..n], i);
    }
  }

  lemma {:induction false} SelectReordered<E>(a: seq<E>, b: seq<E>, p: E -> bool)
    requires multiset(a) == multiset(b)
    ensures multiset(Select(a, p)) == multiset(Select(b, p))
    decreases |a|
  {
    if a == [] {
      assert |multiset(b)| == 0;
    } else {
      var n := |a| - 1;
      var i := Somewhere(a, b, n);
      SelectWithout(b, p, i);
      SelectWithout(a, p, n);
      MultisetWithout(b, i);
      LastOfMultiset(a);
      assert Without(a, n) == a[..n];
      SelectReordered(a[..n], Without(b, i), p);
    }
  }

  lemma Somewhere<E>(a: seq<E>, b: seq<E>, i: nat) returns (j: nat)
    requires multiset(a) == multiset(b) && i < |a|
    ensures j < |b| && b[j] == a[i]
  {
    assert a[i] in multiset(b);
    j :| 0 <= j < |b| && b[j] == a[i];
  }

  // ----- One key's observation ----------------------------------------------------------------------

  function At(es: seq<Sight>, key: string): Option<Observation> {
    if es == [] then None
    else
      var before := At(es[..|es| - 1], key);
      var e := es[|es| - 1];
      if e.key == key then Some(Absorbed(if before.Some? then before.value else Unseen(e), e)) else before
  }

  lemma {:induction false} BoardAt(es: seq<Sight>, key: string)
    ensures var b := NotedAll(Board(map[], []), es);
            At(es, key) == if key in b.byKey then Some(b.byKey[key]) else None
  {
    if es != [] { BoardAt(es[..|es| - 1], key); }
  }

  predicate Mine(e: Sight, key: string) { e.key == key }

  function RestartsOf(key: string): Sight -> int {
    (e: Sight) => if Mine(e, key) && e.status.Some? then e.status.value.restarts else 0
  }

  function FailingOf(key: string): Sight -> bool { (e: Sight) => Mine(e, key) && Failing(e) }

  function PullingOf(key: string): Sight -> bool { (e: Sight) => Mine(e, key) && Pulling(e) }

  predicate Waits(e: Sight) { e.status.Some? && e.status.value.waiting.Some? && e.status.value.waiting.value != Other("") }

  /** The pod of a status has this name. */
  predicate Shows(e: Sight, key: string, pod: string) { Mine(e, key) && e.status.Some? && e.pod.name == pod }

  /** Every container of the key is clean, on every pod. */
  ghost predicate AllCleanOf(es: seq<Sight>, key: string) {
    forall i :: 0 <= i < |es| && Mine(es[i], key) ==> CleanSight(es[i])
  }

  ghost predicate AnyFailing(es: seq<Sight>, key: string) { exists i :: 0 <= i < |es| && Mine(es[i], key) && Failing(es[i]) }

  ghost predicate AnyWaiting(es: seq<Sight>, key: string) { exists i :: 0 <= i < |es| && Mine(es[i], key) && Waits(es[i]) }

  ghost predicate CountsOf(es: seq<Sight>, key: string, counts: map<string, int>) {
    && (forall i :: 0 <= i < |es| && Mine(es[i], key) && es[i].status.Some? ==> es[i].pod.name in counts)
    && (forall pod :: pod in counts ==>
          exists i :: 0 <= i < |es| && Shows(es[i], key, pod) && es[i].status.value.restarts == counts[pod])
  }

  lemma {:induction false} SeenAt(es: seq<Sight>, key: string)
    ensures At(es, key).Some? <==> exists i :: 0 <= i < |es| && Mine(es[i], key)
  {
    if es != [] { SeenAt(es[..|es| - 1], key); }
  }

  lemma {:induction false} CleanAt(es: seq<Sight>, key: string)
    requires At(es, key).Some?
    ensures At(es, key).value.allClean <==> AllCleanOf(es, key)
  {
    var n := |es| - 1;
    SeenAt(es[..n], key);
    if At(es[..n], key).Some? { CleanAt(es[..n], key); }
  }

  lemma {:induction false} RestartsAt(es: seq<Sight>, key: string)
    ensures Sum(es, RestartsOf(key)) == if At(es, key).Some? then At(es, key).value.restarts else 0
  {
    if es != [] { RestartsAt(es[..|es| - 1], key); }
  }

  lemma {:induction false} FailingAt(es: seq<Sight>, key: string)
    ensures Select(es, FailingOf(key)) == if At(es, key).Some? then At(es, key).value.failing else []
  {
    if es != [] { FailingAt(es[..|es| - 1], key); }
  }

  lemma {:induction false} PullingAt(es: seq<Sight>, key: string)
    ensures Select(es, PullingOf(key)) == if At(es, key).Some? then At(es, key).value.pulling else []
  {
    if es != [] { PullingAt(es[..|es| - 1], key); }
  }

  lemma {:induction false} WaitingAt(es: seq<Sight>, key: string)
    requires At(es, key).Some?
    ensures At(es, key).value.waiting.CrashLoopBackOff? <==> AnyFailing(es, key)
    ensures At(es, key).value.waiting != Other("") <==> AnyWaiting(es, key)
  {
    var n := |es| - 1;
    SeenAt(es[..n], key);
    if At(es[..n], key).Some? { WaitingAt(es[..n], key); }
  }

  function Counted(counts: map<string, int>, e: Sight): map<string, int> {
    if e.status.Some? then counts[e.pod.name := e.status.value.restarts] else counts
  }

  lemma CountsOther(es: seq<Sight>, e: Sight, key: string, counts: map<string, int>)
    requires CountsOf(es, key, counts) && !Mine(e, key)
    ensures CountsOf(es + [e], key, counts)
  {
    forall pod | pod in counts
      ensures exists i :: 0 <= i < |es + [e]| && Shows((es + [e])[i], key, pod)
                          && (es + [e])[i].status.value.restarts == counts[pod]
    {
      var i :| 0 <= i < |es| && Shows(es[i], key, pod) && es[i].status.value.restarts == counts[pod];
      assert (es + [e])[i] == es[i];
    }
  }

  lemma CountsMine(es: seq<Sight>, e: Sight, key: string, counts: map<string, int>)
    requires CountsOf(es, key, counts) && Mine(e, key)
    ensures CountsOf(es + [e], key, Counted(counts, e))
  {
    var all := es + [e];
    assert all[|es|] == e;
    forall pod | pod in Counted(counts, e)
      ensures exists i :: 0 <= i < |all| && Shows(all[i], key, pod) && all[i].status.value.restarts == Counted(counts, e)[pod]
    {
      if e.status.None? || pod != e.pod.name {
        var i :| 0 <= i < |es| && Shows(es[i], key, pod) && es[i].status.value.restarts == counts[pod];
        assert all[i] == es[i];
      }
    }
  }

  function CountsIn(o: Option<Observation>): map<string, int> { if o.Some? then o.value.counts else map[] }

  lemma AtCounts(es: seq<Sight>, e: Sight, key: string)
    ensures CountsIn(At(es + [e], key)) == if Mine(e, key) then Counted(CountsIn(At(es, key)), e) else CountsIn(At(es, key))
  {
    assert (es + [e])[..|es|] == es;
  }

  lemma {:induction false} CountsAt(es: seq<Sight>, key: string)
    ensures CountsOf(es, key, CountsIn(At(es, key)))
  {
    if es != [] {
      var n := |es| - 1;
      var counts := CountsIn(At(es[..n], key));
      CountsAt(es[..n], key);
      AtCounts(es[..n], es[n], key);
      assert es == es[..n] + [es[n]];
      if Mine(es[n], key) { CountsMine(es[..n], es[n], key, counts); } else { CountsOther(es[..n], es[n], key, counts); }
    }
  }

  /** An observation is what it should be, directly: clean when every container expected or published
      is, the sum of the restarts, each pod's count, the failing and the pulling replicas, waiting
      when anything waits and crash-looping when anything crash-loops. */
  ghost predicate Describes(o: Observation, es: seq<Sight>, key: string) {
    && (o.allClean <==> AllCleanOf(es, key)) && o.restarts == Sum(es, RestartsOf(key))
    && CountsOf(es, key, o.counts)
    && o.failing == Select(es, FailingOf(key)) && o.pulling == Select(es, PullingOf(key))
    && (o.waiting != Other("") <==> AnyWaiting(es, key)) && (o.waiting.CrashLoopBackOff? <==> AnyFailing(es, key))
  }

  lemma {:induction false} ObservationIs(pods: seq<Pod>, key: string)
    requires key in Observed(pods).byKey
    ensures Describes(Observed(pods).byKey[key], AllSights(pods), key)
  {
    var es := AllSights(pods);
    BoardAt(es, key);
    CleanAt(es, key);
    RestartsAt(es, key);
    CountsAt(es, key);
    FailingAt(es, key);
    PullingAt(es, key);
    WaitingAt(es, key);
  }

  // ----- The order of the pods ----------------------------------------------------------------------

  lemma {:induction false} SightsWithout(pods: seq<Pod>, i: nat)
    requires i < |pods|
    ensures multiset(AllSights(pods)) == multiset(AllSights(Without(pods, i))) + multiset(Sights(pods[i]))
  {
    var n := |pods| - 1;
    if i == n {
      assert Without(pods, i) == pods[..n];
    } else {
      SightsWithout(pods[..n], i);
      var rest := Without(pods, i);
      assert rest[..n - 1] == Without(pods[..n], i) && rest[n - 1] == pods[n];
    }
  }

  lemma {:induction false} SightsReordered(a: seq<Pod>, b: seq<Pod>)
    requires multiset(a) == multiset(b)
    ensures multiset(AllSights(a)) == multiset(AllSights(b))
    decreases |a|
  {
    if a == [] {
      assert |multiset(b)| == 0;
    } else {
      var n := |a| - 1;
      var i := Somewhere(a, b, n);
      SightsWithout(b, i);
      MultisetWithout(b, i);
      LastOfMultiset(a);
      SightsReordered(a[..n], Without(b, i));
    }
  }

  /** Pods of one name agree on a container's restarts, as distinct pod and container names make sure. */
  ghost predicate OneCount(es: seq<Sight>, key: string) {
    forall i, j :: 0 <= i < |es| && 0 <= j < |es| && Mine(es[i], key) && Mine(es[j], key) && es[i].status.Some?
                   && es[j].status.Some? && es[i].pod.name == es[j].pod.name
                   ==> es[i].status.value.restarts == es[j].status.value.restarts
  }

  /** Two observations that differ at most in the representative, in the order of replicas, and in
      which of several equal reasons is named. */
  predicate SameObservation(o: Observation, o': Observation) {
    && o.allClean == o'.allClean && o.restarts == o'.restarts && o.counts == o'.counts
    && multiset(o.failing) == multiset(o'.failing) && multiset(o.pulling) == multiset(o'.pulling)
    && (o.waiting == Other("") <==> o'.waiting == Other(""))
    && (o.waiting.CrashLoopBackOff? <==> o'.waiting.CrashLoopBackOff?)
  }

  lemma QuantifiersReordered(a: seq<Sight>, b: seq<Sight>, key: string)
    requires multiset(a) == multiset(b)
    ensures AllCleanOf(a, key) ==> AllCleanOf(b, key)
    ensures AnyFailing(a, key) ==> AnyFailing(b, key)
    ensures AnyWaiting(a, key) ==> AnyWaiting(b, key)
  {
    if AllCleanOf(a, key) {
      forall i | 0 <= i < |b| && Mine(b[i], key) ensures CleanSight(b[i]) { var j := Somewhere(b, a, i); }
    }
    if AnyFailing(a, key) {
      var i :| 0 <= i < |a| && Mine(a[i], key) && Failing(a[i]);
      var j := Somewhere(a, b, i);
    }
    if AnyWaiting(a, key) {
      var i :| 0 <= i < |a| && Mine(a[i], key) && Waits(a[i]);
      var j := Somewhere(a, b, i);
    }
  }

  lemma CountsReordered(a: seq<Sight>, b: seq<Sight>, key: string, counts: map<string, int>, counts': map<string, int>)
    requires multiset(a) == multiset(b) && OneCount(a, key) && CountsOf(a, key, counts) && CountsOf(b, key, counts')
    ensures forall pod :: pod in counts' ==> pod in counts && counts[pod] == counts'[pod]
  {
    forall pod | pod in counts' ensures pod in counts && counts[pod] == counts'[pod] {
      var i :| 0 <= i < |b| && Shows(b[i], key, pod) && b[i].status.value.restarts == counts'[pod];
      var j := Somewhere(b, a, i);
      var m :| 0 <= m < |a| && Shows(a[m], key, pod) && a[m].status.value.restarts == counts[pod];
    }
  }

  lemma OneCountReordered(a: seq<Sight>, b: seq<Sight>, key: string)
    requires multiset(a) == multiset(b) && OneCount(a, key)
    ensures OneCount(b, key)
  {
    forall i, j | 0 <= i < |b| && 0 <= j < |b| && Mine(b[i], key) && Mine(b[j], key) && b[i].status.Some?
                  && b[j].status.Some? && b[i].pod.name == b[j].pod.name
      ensures b[i].status.value.restarts == b[j].status.value.restarts
    {
      var i' := Somewhere(b, a, i);
      var j' := Somewhere(b, a, j);
    }
  }

  /** Listing the same pods in another order observes the same workloads, and the same of each. */
  lemma {:induction false} PodOrderDoesNotMatter(a: seq<Pod>, b: seq<Pod>, key: string)
    requires multiset(a) == multiset(b) && OneCount(AllSights(a), key)
    ensures var x, y := Observed(a).byKey, Observed(b).byKey;
            (key in x <==> key in y) && (key in x ==> SameObservation(x[key], y[key]))
  {
    var es, es' := AllSights(a), AllSights(b);
    SightsReordered(a, b);
    BoardAt(es, key);
    BoardAt(es', key);
    SeenAt(es, key);
    SeenAt(es', key);
    if i :| 0 <= i < |es| && Mine(es[i], key) { var j := Somewhere(es, es', i); }
    if i :| 0 <= i < |es'| && Mine(es'[i], key) { var j := Somewhere(es', es, i); }
    if At(es, key).Some? {
      ObservationIs(a, key);
      ObservationIs(b, key);
      ReorderedSame(es, es', key, Observed(a).byKey[key], Observed(b).byKey[key]);
    }
  }

  lemma ReorderedSame(es: seq<Sight>, es': seq<Sight>, key: string, o: Observation, o': Observation)
    requires multiset(es) == multiset(es') && OneCount(es, key) && Describes(o, es, key) && Describes(o', es', key)
    ensures SameObservation(o, o')
  {
    SumReordered(es, es', RestartsOf(key));
    SelectReordered(es, es', FailingOf(key));
    SelectReordered(es, es', PullingOf(key));
    QuantifiersReordered(es, es', key);
    QuantifiersReordered(es', es, key);
    OneCountReordered(es, es', key);
    CountsReordered(es, es', key, o.counts, o'.counts);
    CountsReordered(es', es, key, o'.counts, o.counts);
    assert o.counts == o'.counts;
  }
}
