/** The quota decision in the running system: authz/authorizer.go, Authorize's quota step over a
    cache that lags behind the store. The decision is taken as one step. */
module QuotaBound {
  import opened Wrappers
  import opened Usage
  import opened Quota
  import opened Period
  import opened UsageProtocol
  import opened UsageRuns
  import Calendar

  datatype Limit = Limit(requests: nat, period: string)

  /** The day of a key, if it has one. */
  function KeyDay(k: Key): Option<int> {
    var day := Calendar.Parse(k.day);
    if day.Some? then Some(Midnight(day.value)) else None
  }

  function Days(): Key -> Option<int> { KeyDay }

  /** The protocol prunes the floors the buffer prunes. */
  lemma {:induction false} PruneAgrees(floors: map<Key, nat>, clock: int)
    ensures KeptFloors(floors, Days(), clock) == Pruned(floors, clock - FLOOR_RETENTION)
  {
    assert KeptFloors(floors, Days(), clock).Keys == Pruned(floors, clock - FLOOR_RETENTION).Keys;
  }

  function ShownAt(cache: map<Key, nat>, h: Hist<Key>, k: Key): nat {
    var n := FloorAt(cache, k);
    if 0 < n <= |HistoryOf(h, k)| then HistoryOf(h, k)[n - 1].allowed else 0
  }

  /** The rollups the cache shows, each at the version it has seen. */
  function Shown(cache: map<Key, nat>, h: Hist<Key>): map<Key, nat> {
    map k | k in h && FloorAt(cache, k) > 0 :: ShownAt(cache, h, k)
  }

  /** The day a request is counted on. */
  function Today(now: int): string {
    var d := Calendar.DateOf(DayOf(now));
    if 0 <= d.year then Calendar.Format(d) else ""
  }

  /** The figure the quota check compares with the limit. */
  ghost function PeriodUse(r: Replica<Key>, h: Hist<Key>, namespace: string, prefix: string, period: string): nat {
    Used(Shown(r.cache, h), r.floors, r.counts, namespace, prefix, PeriodStart(r.clock, period))
  }

  /** The counter a request of a known key is counted on: quota first, then the rate token. */
  ghost function Verdict(r: Replica<Key>, h: Hist<Key>, namespace: string, prefix: string, limit: Option<Limit>,
                         token: bool): Counter
  {
    if limit.Some? && PeriodUse(r, h, namespace, prefix, limit.value.period) >= limit.value.requests
    then CounterDeniedQuota
    else if !token then CounterDeniedRate
    else CounterAllowed
  }

  /** All keys the figure may look at. */
  function KeysOf(r: Replica<Key>, h: Hist<Key>): set<Key> { h.Keys + r.floors.Keys + r.counts.Keys + r.added.Keys }

  /** One summand per key of the namespace and prefix on a day of the period. */
  ghost function InPeriod(f: Key -> nat, namespace: string, prefix: string, start: int): Key -> nat {
    (k: Key) => if Counted(k, namespace, prefix, start) then f(k) else 0
  }

  /** What a replica has counted as allowed, and what of it is neither buffered nor in a floor. */
  function Own(r: Replica<Key>): Key -> nat { (k: Key) => Added(r, k, CounterAllowed) }

  function InFlight(r: Replica<Key>): Key -> nat {
    (k: Key) => CountsAt(r.batch, k).allowed + CountsAt(r.failed, k).allowed + LandingCount(r.work, k)
  }

  /** What all replicas together have counted as allowed. */
  function Everyone(rs: seq<Replica<Key>>): Key -> nat { (k: Key) => AllAdded(rs, k, CounterAllowed) }

  ghost function Total(keys: set<Key>, f: Key -> nat, namespace: string, prefix: string, start: int): nat {
    Sum(keys, InPeriod(f, namespace, prefix, start))
  }

  lemma {:induction false} OneOfAll(rs: seq<Replica<Key>>, i: nat, k: Key, c: Counter)
    requires i < |rs|
    ensures Held(rs[i], k, c) <= AllHeld(rs, k, c)
  {
    if i < |rs| - 1 { OneOfAll(rs[..|rs| - 1], i, k, c); }
  }

  lemma UsedBelow(st: State<Key>, i: nat, k: Key)
    requires Good(st, Days()) && i < |st.replicas|
    ensures UsedOn(k, Shown(st.replicas[i].cache, st.hist), st.replicas[i].floors, st.replicas[i].counts)
            <= AllAdded(st.replicas, k, CounterAllowed)
  {
    var r := st.replicas[i];
    assert Accounted(st, k, CounterAllowed);
    AllParts(st.replicas, st.hist, Days(), k, CounterAllowed);
    OneOfAll(st.replicas, i, k, CounterAllowed);
    assert Grown(HistoryOf(st.hist, k));
    assert ReplicaOk(r, st.hist, Days());
    assert FlooredAt(r, st.hist, Days(), k);
  }

  lemma UsedCovers(r: Replica<Key>, h: Hist<Key>, k: Key)
    requires ReplicaOk(r, h, Days()) && Live(KeyDay(k), r.clock)
    ensures Added(r, k, CounterAllowed) <= UsedOn(k, Shown(r.cache, h), r.floors, r.counts) + InFlight(r)(k)
  {
    assert KeptAt(r, k);
    assert FlooredAt(r, h, Days(), k);
  }

  lemma CountedIsLive(k: Key, namespace: string, prefix: string, clock: int, period: string)
    requires Counted(k, namespace, prefix, PeriodStart(clock, period))
    ensures Live(KeyDay(k), clock)
  {
    var day := Midnight(Calendar.Parse(k.day).value);
    if day < clock - FLOOR_RETENTION { PrunedIsUncounted(day, clock, clock, period); }
  }

  /** The figure over any set of keys that includes those it looks at. */
  lemma UseOver(r: Replica<Key>, h: Hist<Key>, namespace: string, prefix: string, period: string, keys: set<Key>)
    requires KeysOf(r, h) <= keys
    ensures PeriodUse(r, h, namespace, prefix, period)
            == Sum(keys, UsedFor(Shown(r.cache, h), r.floors, r.counts, namespace, prefix, PeriodStart(r.clock, period)))
  {
    var looked := Shown(r.cache, h).Keys + r.floors.Keys + r.counts.Keys;
    SumSupport(looked, keys, UsedFor(Shown(r.cache, h), r.floors, r.counts, namespace, prefix, PeriodStart(r.clock, period)));
  }

  /** A state some run of some replicas reaches. */
  ghost predicate Reachable(st: State<Key>) {
    exists clocks, actions :: st == Run(Start(clocks), Days(), actions)
  }

  lemma ReachableGood(st: State<Key>)
    requires Reachable(st)
    ensures Good(st, Days())
  {
    var clocks, actions :| st == Run(Start(clocks), Days(), actions);
    RunOk(clocks, Days(), actions);
  }

  /** In every state of every run, the figure of any replica is at most what all replicas together
      have admitted in the period: no client is refused for requests nobody made. */
  lemma {:induction false} UseBelowTotal(st: State<Key>, i: nat, namespace: string, prefix: string,
                                         period: string, keys: set<Key>)
    requires Reachable(st) && i < |st.replicas| && KeysOf(st.replicas[i], st.hist) <= keys
    ensures var r := st.replicas[i];
            PeriodUse(r, st.hist, namespace, prefix, period)
            <= Total(keys, Everyone(st.replicas), namespace, prefix, PeriodStart(r.clock, period))
  {
    ReachableGood(st);
    var r := st.replicas[i];
    var start := PeriodStart(r.clock, period);
    UseOver(r, st.hist, namespace, prefix, period, keys);
    forall k: Key { UsedBelow(st, i, k); }
    SumLeq(keys, UsedFor(Shown(r.cache, st.hist), r.floors, r.counts, namespace, prefix, start),
           InPeriod(Everyone(st.replicas), namespace, prefix, start));
  }

  /** In every state, the figure misses nothing of what the replica itself has admitted in the period
      but the entries its flush has under way. */
  lemma {:induction false} UseCoversOwn(r: Replica<Key>, h: Hist<Key>, namespace: string, prefix: string,
                                         period: string, keys: set<Key>)
    requires ReplicaOk(r, h, Days()) && KeysOf(r, h) <= keys
    ensures var start := PeriodStart(r.clock, period);
            Total(keys, Own(r), namespace, prefix, start)
            <= PeriodUse(r, h, namespace, prefix, period) + Total(keys, InFlight(r), namespace, prefix, start)
  {
    var start := PeriodStart(r.clock, period);
    var used := UsedFor(Shown(r.cache, h), r.floors, r.counts, namespace, prefix, start);
    var flying := InPeriod(InFlight(r), namespace, prefix, start);
    var both := (k: Key) => used(k) + flying(k);
    UseOver(r, h, namespace, prefix, period, keys);
    SumPlus(keys, used, flying, both);
    forall k | k in keys ensures InPeriod(Own(r), namespace, prefix, start)(k) <= both(k) {
      if Counted(k, namespace, prefix, start) {
        CountedIsLive(k, namespace, prefix, r.clock, period);
        UsedCovers(r, h, k);
      }
    }
    SumLeq(keys, InPeriod(Own(r), namespace, prefix, start), both);
  }

  /** Today lies in every period that contains now, as long as years have four digits. */
  lemma {:induction false} TodayCounted(namespace: string, prefix: string, now: int, period: string)
    requires 0 <= Calendar.DateOf(DayOf(now)).year < 10000
    ensures Counted(Key(namespace, prefix, Today(now)), namespace, prefix, PeriodStart(now, period))
  {
    var d := Calendar.DateOf(DayOf(now));
    Calendar.ParseFormat(d);
    StartDayFacts(DayOf(now), period);
  }

  lemma BumpedAt<K>(counts: map<K, Counts>, k: K, x: K)
    ensures CountsAt(counts[k := CountsAt(counts, k).Bump(CounterAllowed)], x).allowed
            == CountsAt(counts, x).allowed + (if x == k then 1 else 0)
  {
  }

  lemma UsedGrows(shown: map<Key, nat>, floors: map<Key, nat>, counts: map<Key, Counts>, counts': map<Key, Counts>,
                  namespace: string, prefix: string, start: int, k: Key, keys: set<Key>)
    requires k in keys && Counted(k, namespace, prefix, start)
    requires forall x :: CountsAt(counts', x).allowed == CountsAt(counts, x).allowed + (if x == k then 1 else 0)
    ensures Sum(keys, UsedFor(shown, floors, counts', namespace, prefix, start))
            == Sum(keys, UsedFor(shown, floors, counts, namespace, prefix, start)) + 1
  {
    var before := UsedFor(shown, floors, counts, namespace, prefix, start);
    var after := UsedFor(shown, floors, counts', namespace, prefix, start);
    SumTake(keys, before, k);
    SumTake(keys, after, k);
    SumEqual(keys - {k}, before, after);
  }

  /** Counting a request as allowed raises the figure by one if its day is counted. */
  lemma {:induction false} UseGrows(r: Replica<Key>, h: Hist<Key>, namespace: string, prefix: string, period: string, k: Key)
    requires Counted(k, namespace, prefix, PeriodStart(r.clock, period))
    ensures PeriodUse(StepReplica(r, h, Days(), Count(k, CounterAllowed)), h, namespace, prefix, period)
            == PeriodUse(r, h, namespace, prefix, period) + 1
  {
    var r' := r.(counts := Bumped(r.counts, k, CounterAllowed), added := Bumped(r.added, k, CounterAllowed));
    var keys := KeysOf(r, h) + KeysOf(r', h) + {k};
    UseOver(r, h, namespace, prefix, period, keys);
    UseOver(r', h, namespace, prefix, period, keys);
    forall x { BumpedAt(r.counts, k, x); }
    UsedGrows(Shown(r.cache, h), r.floors, r.counts, r'.counts, namespace, prefix, PeriodStart(r.clock, period), k, keys);
  }

  /** Right after any admission under a quota, all the replica itself has admitted in the period is
      at most the quota and what its flush has under way. */
  lemma {:induction false} AdmissionBound(st: State<Key>, i: nat, namespace: string, prefix: string,
                                           limit: Limit, keys: set<Key>)
    requires Reachable(st) && i < |st.replicas|
    requires 0 <= Calendar.DateOf(DayOf(st.replicas[i].clock)).year < 10000
    requires Verdict(st.replicas[i], st.hist, namespace, prefix, Some(limit), true) == CounterAllowed
    requires var k := Key(namespace, prefix, Today(st.replicas[i].clock));
             KeysOf(Apply(st, Days(), Action(i, Count(k, CounterAllowed))).replicas[i], st.hist) <= keys
    ensures var k := Key(namespace, prefix, Today(st.replicas[i].clock));
            var r := Apply(st, Days(), Action(i, Count(k, CounterAllowed))).replicas[i];
            var start := PeriodStart(r.clock, limit.period);
            Total(keys, Own(r), namespace, prefix, start)
            <= limit.requests + Total(keys, InFlight(r), namespace, prefix, start)
  {
    ReachableGood(st);
    var r := st.replicas[i];
    var k := Key(namespace, prefix, Today(r.clock));
    var step: Step<Key> := Count(k, CounterAllowed);
    assert ReplicaOk(r, st.hist, Days());
    StepOk(r, st.hist, Days(), step);
    TodayCounted(namespace, prefix, r.clock, limit.period);
    UseGrows(r, st.hist, namespace, prefix, limit.period, k);
    UseCoversOwn(StepReplica(r, st.hist, Days(), step), st.hist, namespace, prefix, limit.period, keys);
  }
}
