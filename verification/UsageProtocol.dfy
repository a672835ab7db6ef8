/** Any number of replicas metering and flushing together over one store of rollups, each seeing the
    store through its own lagging cache: authz/usage.go and the quota step of authz/authorizer.go.
    Every step of every replica may happen at any time and in any order. */
module UsageProtocol {
  import opened Wrappers
  import opened Usage
  import opened Quota
  import opened Period

  /** What each rollup has been, oldest first. Its version is the length, zero while it is missing. */
  type Hist<K> = map<K, seq<Counts>>

  function HistoryOf<K>(h: Hist<K>, k: K): seq<Counts> { if k in h then h[k] else [] }

  function LatestOf(s: seq<Counts>): Counts { if s == [] then Zero() else s[|s| - 1] }

  function Latest<K>(h: Hist<K>, k: K): Counts { LatestOf(HistoryOf(h, k)) }

  /** Where a replica is in a flush; `tries` counts the attempts at the current entry. */
  datatype Work<K> =
    | Idle
    | Choosing
    | Attempt(key: K, tries: nat)
    | HasRead(key: K, tries: nat, version: nat, seen: Counts)
    | Landed(key: K, total: nat, count: nat)

  /** `added` and `settled` record what the replica has counted and what of it the store accepted. */
  datatype Replica<K> = Replica(clock: int, counts: map<K, Counts>, floors: map<K, nat>,
                             batch: map<K, Counts>, failed: map<K, Counts>, work: Work<K>,
                             cache: map<K, nat>, added: map<K, Counts>, settled: map<K, Counts>)

  function NewReplica<K>(clock: int): Replica<K> {
    Replica(clock, map[], map[], map[], map[], Idle, map[], map[], map[])
  }

  datatype Step<K> =
    | Tick(to: int)
    | Count(key: K, counter: Counter)
    | Prune
    | Drain
    | Begin(key: K)
    | Get(fault: bool)
    | Write(fault: bool)
    | Floor
    | Restore
    | Observe(key: K, version: nat)

  function Bumped<K>(m: map<K, Counts>, k: K, counter: Counter): map<K, Counts> {
    m[k := CountsAt(m, k).Bump(counter)]
  }

  function Plussed<K>(m: map<K, Counts>, k: K, c: Counts): map<K, Counts> { m[k := CountsAt(m, k).Plus(c)] }

  /** The entry's last attempt is over without a write. */
  function Fail<K>(r: Replica<K>, k: K): Replica<K> {
    r.(batch := r.batch - {k}, failed := r.failed[k := CountsAt(r.batch, k)], work := Choosing)
  }

  /** Whether the write finds the rollup as it was read: still missing, or at the same version. */
  predicate Lands<K>(h: Hist<K>, s: Step<K>, w: Work<K>) {
    s.Write? && !s.fault && w.HasRead? && |HistoryOf(h, w.key)| == w.version
  }

  function StepHist<K>(r: Replica<K>, h: Hist<K>, s: Step<K>): Hist<K> {
    if Lands(h, s, r.work) then
      h[r.work.key := HistoryOf(h, r.work.key) + [r.work.seen.Plus(CountsAt(r.batch, r.work.key))]]
    else h
  }

  /** One step of one replica; a step that is not possible does nothing. */
  function StepReplica<K>(r: Replica<K>, h: Hist<K>, days: K -> Option<int>, s: Step<K>): Replica<K> {
    match s
    case Tick(to) => if r.clock <= to then r.(clock := to) else r
    case Count(k, counter) => r.(counts := Bumped(r.counts, k, counter), added := Bumped(r.added, k, counter))
    case Prune => if r.work.Idle? then r.(floors := KeptFloors(r.floors, days, r.clock)) else r
    case Drain => if r.work.Idle? then r.(counts := map[], batch := r.counts, work := Choosing) else r
    case Begin(k) => if r.work.Choosing? && k in r.batch then r.(work := Attempt(k, 0)) else r
    case Get(fault) =>
      if !r.work.Attempt? then r
      else if fault then Fail(r, r.work.key)
      else
        var past := HistoryOf(h, r.work.key);
        r.(work := HasRead(r.work.key, r.work.tries, |past|, LatestOf(past)))
    case Write(fault) =>
      if !r.work.HasRead? then r
      else if Lands(h, s, r.work) then Land(r, r.work.key, r.work.seen)
      else if fault || r.work.tries == 4 then Fail(r, r.work.key)
      else r.(work := Attempt(r.work.key, r.work.tries + 1))
    case Floor =>
      if r.work.Landed? then r.(floors := Raised(r.floors, r.work.key, r.work.total), work := Choosing) else r
    case Restore =>
      if r.work.Choosing? && r.batch == map[]
      then r.(counts := Merged(r.counts, r.failed), failed := map[], work := Idle) else r
    case Observe(k, version) =>
      if FloorAt(r.cache, k) <= version <= |HistoryOf(h, k)| then r.(cache := r.cache[k := version]) else r
  }

  function Land<K>(r: Replica<K>, k: K, seen: Counts): Replica<K> {
    var c := CountsAt(r.batch, k);
    r.(batch := r.batch - {k}, settled := Plussed(r.settled, k, c),
      work := Landed(k, seen.allowed + c.allowed, c.allowed))
  }

  // ----- What every step keeps ----------------------------------------------------------------------

  /** All a replica has counted is settled, buffered, drained or about to be restored. */
  predicate Conserved(added: Counts, settled: Counts, counts: Counts, batch: Counts, failed: Counts) {
    && Parts(added.allowed, settled.allowed, counts.allowed, batch.allowed, failed.allowed)
    && Parts(added.deniedRate, settled.deniedRate, counts.deniedRate, batch.deniedRate, failed.deniedRate)
    && Parts(added.deniedQuota, settled.deniedQuota, counts.deniedQuota, batch.deniedQuota, failed.deniedQuota)
  }

  predicate Parts(all: nat, settled: nat, counts: nat, batch: nat, failed: nat) {
    all == settled + counts + batch + failed
  }

  predicate ConservedAt<K>(added: map<K, Counts>, settled: map<K, Counts>, counts: map<K, Counts>,
                           batch: map<K, Counts>, failed: map<K, Counts>, k: K)
  {
    && Conserved(CountsAt(added, k), CountsAt(settled, k), CountsAt(counts, k), CountsAt(batch, k), CountsAt(failed, k))
    && !(k in batch && k in failed)
  }

  /** A rollup's versions never lose requests. */
  predicate Grown(past: seq<Counts>) { forall i :: 0 <= i < |past| ==> past[i].allowed <= LatestOf(past).allowed }

  /** A floor, or the total just written, covers what this replica has settled, as long as the day
      can still be counted; the floor alone covers all but the entry just written; and no floor is
      above the rollup. */
  predicate Covered(live: bool, floor: nat, settled: nat, landing: nat, count: nat, latest: nat) {
    && floor <= latest && landing <= latest
    && (live ==> settled <= Max(floor, landing) && settled <= floor + count)
  }

  predicate Live(day: Option<int>, clock: int) { day.Some? && clock - FLOOR_RETENTION <= day.value }

  /** The floors of the days that are not too old, as Usage.Pruned keeps them. */
  function KeptFloors<K>(floors: map<K, nat>, days: K -> Option<int>, clock: int): map<K, nat> {
    map k | k in floors && Live(days(k), clock) :: floors[k]
  }

  ghost predicate FlooredAt<K>(r: Replica<K>, h: Hist<K>, days: K -> Option<int>, k: K) {
    Covered(Live(days(k), r.clock), FloorAt(r.floors, k), CountsAt(r.settled, k).allowed, Landing(r.work, k),
            LandingCount(r.work, k), Latest(h, k).allowed)
  }

  function Landing<K(==)>(w: Work<K>, k: K): nat { if w.Landed? && w.key == k then w.total else 0 }

  function LandingCount<K(==)>(w: Work<K>, k: K): nat { if w.Landed? && w.key == k then w.count else 0 }

  ghost predicate WorkOk<K>(r: Replica<K>, h: Hist<K>) {
    match r.work
    case Idle => r.batch == map[] && r.failed == map[]
    case Choosing => true
    case Attempt(k, tries) => k in r.batch && tries < 5
    case HasRead(k, tries, version, seen) =>
      k in r.batch && tries < 5 && version <= |HistoryOf(h, k)| && seen == LatestOf(HistoryOf(h, k)[..version])
    case Landed(k, total, count) => true
  }

  ghost predicate Kept<K(!new)>(r: Replica<K>) { forall k :: KeptAt(r, k) }

  ghost predicate Floored<K(!new)>(r: Replica<K>, h: Hist<K>, days: K -> Option<int>) { forall k :: FlooredAt(r, h, days, k) }

  ghost predicate HistOk<K(!new)>(h: Hist<K>) { forall k :: Grown(HistoryOf(h, k)) }

  ghost predicate ReplicaOk<K(!new)>(r: Replica<K>, h: Hist<K>, days: K -> Option<int>) {
    Kept(r) && Floored(r, h, days) && WorkOk(r, h)
  }

  lemma BumpKept<K>(added: map<K, Counts>, settled: map<K, Counts>, counts: map<K, Counts>, batch: map<K, Counts>,
                    failed: map<K, Counts>, at: K, counter: Counter, k: K)
    requires ConservedAt(added, settled, counts, batch, failed, k)
    ensures ConservedAt(added[at := CountsAt(added, at).Bump(counter)], settled,
                        counts[at := CountsAt(counts, at).Bump(counter)], batch, failed, k)
  {
  }

  lemma DrainKept<K>(added: map<K, Counts>, settled: map<K, Counts>, counts: map<K, Counts>, failed: map<K, Counts>, k: K)
    requires ConservedAt(added, settled, counts, map[], failed, k) && failed == map[]
    ensures ConservedAt(added, settled, map[], counts, failed, k)
  {
  }

  lemma RestoreKept<K>(added: map<K, Counts>, settled: map<K, Counts>, counts: map<K, Counts>, failed: map<K, Counts>, k: K)
    requires ConservedAt(added, settled, counts, map[], failed, k)
    ensures ConservedAt(added, settled, Merged(counts, failed), map[], map[], k)
  {
    MergedAt(counts, failed, k);
    Return(CountsAt(added, k), CountsAt(settled, k), CountsAt(counts, k), CountsAt(failed, k));
  }

  lemma Return(added: Counts, settled: Counts, counts: Counts, failed: Counts)
    requires Conserved(added, settled, counts, Zero(), failed)
    ensures Conserved(added, settled, counts.Plus(failed), Zero(), Zero())
  {
  }

  predicate KeptAt<K>(r: Replica<K>, k: K) { ConservedAt(r.added, r.settled, r.counts, r.batch, r.failed, k) }

  lemma FailKeptAt<K>(r: Replica<K>, at: K, k: K)
    requires KeptAt(r, k) && at in r.batch
    ensures KeptAt(Fail(r, at), k)
  {
  }

  lemma LandKeptAt<K>(r: Replica<K>, at: K, seen: Counts, k: K)
    requires KeptAt(r, k) && at in r.batch
    ensures KeptAt(Land(r, at, seen), k)
  {
  }

  lemma CallKeptAt<K>(r: Replica<K>, h: Hist<K>, days: K -> Option<int>, s: Step<K>, k: K)
    requires KeptAt(r, k) && WorkOk(r, h) && (s.Get? || s.Write?)
    ensures KeptAt(StepReplica(r, h, days, s), k)
  {
    if s.Get? {
      if r.work.Attempt? && s.fault { FailKeptAt(r, r.work.key, k); }
    } else if r.work.HasRead? {
      if Lands(h, s, r.work) {
        LandKeptAt(r, r.work.key, r.work.seen, k);
      } else if s.fault || r.work.tries == 4 {
        FailKeptAt(r, r.work.key, k);
      }
    }
  }

  lemma {:induction false} StepKeptAt<K>(r: Replica<K>, h: Hist<K>, days: K -> Option<int>, s: Step<K>, k: K)
    requires KeptAt(r, k) && WorkOk(r, h)
    ensures KeptAt(StepReplica(r, h, days, s), k)
  {
    if s.Get? || s.Write? {
      CallKeptAt(r, h, days, s, k);
    } else if s.Count? {
      BumpKept(r.added, r.settled, r.counts, r.batch, r.failed, s.key, s.counter, k);
    } else if s.Drain? {
      if r.work.Idle? { DrainKept(r.added, r.settled, r.counts, r.failed, k); }
    } else if s.Restore? {
      if r.work.Choosing? && r.batch == map[] { RestoreKept(r.added, r.settled, r.counts, r.failed, k); }
    }
  }

  /** A rollup moved on: versions are appended and no requests are lost. */
  predicate Extends(past: seq<Counts>, past': seq<Counts>) {
    past <= past' && LatestOf(past).allowed <= LatestOf(past').allowed
  }

  /** A write that lands adds the entry's counts to the rollup's latest version. */
  lemma {:induction false} LandHist<K>(r: Replica<K>, h: Hist<K>, s: Step<K>, k: K)
    requires WorkOk(r, h) && Grown(HistoryOf(h, k))
    ensures Extends(HistoryOf(h, k), HistoryOf(StepHist(r, h, s), k)) && Grown(HistoryOf(StepHist(r, h, s), k))
    ensures !Lands(h, s, r.work) || k != r.work.key ==> HistoryOf(StepHist(r, h, s), k) == HistoryOf(h, k)
    ensures Lands(h, s, r.work) && k == r.work.key ==>
              r.work.seen == Latest(h, k) && Latest(StepHist(r, h, s), k) == Latest(h, k).Plus(CountsAt(r.batch, k))
  {
    if Lands(h, s, r.work) && k == r.work.key {
      var past := HistoryOf(h, k);
      assert past[..r.work.version] == past;
    }
  }

  lemma PrunedAt<K>(floors: map<K, nat>, days: K -> Option<int>, clock: int, k: K)
    ensures FloorAt(KeptFloors(floors, days, clock), k) == if Live(days(k), clock) then FloorAt(floors, k) else 0
  {
  }

  lemma RaisedAt<K>(floors: map<K, nat>, at: K, total: nat, k: K)
    ensures FloorAt(Raised(floors, at, total), k) == if k == at then Max(FloorAt(floors, k), total) else FloorAt(floors, k)
  {
  }

  lemma PlussedAt<K>(m: map<K, Counts>, at: K, c: Counts, k: K)
    ensures CountsAt(m[at := CountsAt(m, at).Plus(c)], k) == if k == at then CountsAt(m, k).Plus(c) else CountsAt(m, k)
  {
  }

  lemma LowerFlooredAt<K>(r: Replica<K>, h: Hist<K>, days: K -> Option<int>, s: Step<K>, k: K)
    requires FlooredAt(r, h, days, k) && r.work.Landed?
    ensures FlooredAt(r.(floors := Raised(r.floors, r.work.key, r.work.total), work := Choosing), h, days, k)
  {
    RaisedAt(r.floors, r.work.key, r.work.total, k);
    if k == r.work.key { } else { }
  }

  /** Nothing the floors depend on has changed. */
  predicate SameFloors<K>(r: Replica<K>, r': Replica<K>) {
    && r'.floors == r.floors && r'.settled == r.settled && r'.clock == r.clock
    && (r'.work == r.work || (!r.work.Landed? && !r'.work.Landed?))
  }

  lemma SameFlooredAt<K>(r: Replica<K>, r': Replica<K>, h: Hist<K>, days: K -> Option<int>, k: K)
    requires SameFloors(r, r') && FlooredAt(r, h, days, k)
    ensures FlooredAt(r', h, days, k)
  {
  }

  lemma CallSameFloors<K>(r: Replica<K>, h: Hist<K>, days: K -> Option<int>, s: Step<K>)
    requires (s.Get? || s.Write?) && !Lands(h, s, r.work)
    ensures SameFloors(r, StepReplica(r, h, days, s))
  {
    if s.Get? {
      if r.work.Attempt? { if s.fault { } else { } }
    } else if r.work.HasRead? {
      if s.fault || r.work.tries == 4 { } else { }
    }
  }

  lemma StepSameFloors<K>(r: Replica<K>, h: Hist<K>, days: K -> Option<int>, s: Step<K>)
    requires !s.Tick? && !s.Prune? && !s.Floor? && !Lands(h, s, r.work)
    ensures SameFloors(r, StepReplica(r, h, days, s))
  {
    match s
    case Get(fault) => CallSameFloors(r, h, days, s);
    case Write(fault) => CallSameFloors(r, h, days, s);
    case Restore => if r.work.Choosing? && r.batch == map[] { } else { }
    case Observe(k, version) => if FloorAt(r.cache, k) <= version <= |HistoryOf(h, k)| { } else { }
    case Count(k, counter) =>
    case Drain =>
    case Begin(k) => if r.work.Choosing? && k in r.batch { } else { }
  }

  lemma {:induction false} StepFlooredAt<K>(r: Replica<K>, h: Hist<K>, days: K -> Option<int>, s: Step<K>, k: K)
    requires FlooredAt(r, h, days, k) && WorkOk(r, h) && Grown(HistoryOf(h, k))
    ensures FlooredAt(StepReplica(r, h, days, s), StepHist(r, h, s), days, k)
  {
    match s
    case Tick(to) => if r.clock <= to { } else { }
    case Prune => PrunedAt(r.floors, days, r.clock, k);
    case Floor => if r.work.Landed? { LowerFlooredAt(r, h, days, s, k); }
    case _ =>
      if Lands(h, s, r.work) {
      } else {
        StepSameFloors(r, h, days, s);
        SameFlooredAt(r, StepReplica(r, h, days, s), h, days, k);
      }
  }

  lemma GetWorkOk<K(!new)>(r: Replica<K>, h: Hist<K>, days: K -> Option<int>, s: Step<K>)
    requires WorkOk(r, h) && s.Get?
    ensures WorkOk(StepReplica(r, h, days, s), h)
  {
    if r.work.Attempt? {
      if s.fault {
      } else {
        var past := HistoryOf(h, r.work.key);
        assert past[..|past|] == past;
      }
    }
  }

  lemma WriteWorkOk<K(!new)>(r: Replica<K>, h: Hist<K>, days: K -> Option<int>, s: Step<K>)
    requires WorkOk(r, h) && s.Write?
    ensures WorkOk(StepReplica(r, h, days, s), StepHist(r, h, s))
  {
    if r.work.HasRead? {
      if Lands(h, s, r.work) {
      } else if s.fault || r.work.tries == 4 {
      } else {
      }
    }
  }

  lemma {:induction false} StepWorkOk<K(!new)>(r: Replica<K>, h: Hist<K>, days: K -> Option<int>, s: Step<K>)
    requires WorkOk(r, h)
    ensures WorkOk(StepReplica(r, h, days, s), StepHist(r, h, s))
  {
    match s
    case Get(fault) => GetWorkOk(r, h, days, s);
    case Write(fault) => WriteWorkOk(r, h, days, s);
    case Begin(k) => if r.work.Choosing? && k in r.batch { } else { }
    case Restore => if r.work.Choosing? && r.batch == map[] { } else { }
    case _ => IdleWorkOk(r, h, days, s);
  }

  lemma IdleWorkOk<K(!new)>(r: Replica<K>, h: Hist<K>, days: K -> Option<int>, s: Step<K>)
    requires WorkOk(r, h) && !s.Get? && !s.Write? && !s.Begin? && !s.Restore?
    ensures WorkOk(StepReplica(r, h, days, s), h)
  {
    match s
    case Tick(to) => if r.clock <= to { } else { }
    case Observe(k, version) => if FloorAt(r.cache, k) <= version <= |HistoryOf(h, k)| { } else { }
    case Drain => if r.work.Idle? { } else { }
    case Prune => if r.work.Idle? { } else { }
    case Floor => if r.work.Landed? { } else { }
    case Count(k, counter) =>
  }
}
