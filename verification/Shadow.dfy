/** A replica of the protocol that follows what a flush really does: one step for each of its calls,
    with the other replicas' writes between them. */
module Shadow {
  import opened Wrappers
  import opened Usage
  import opened UsageProtocol

  /** A step of ours, or somebody else's landed write. */
  datatype Move<K> = Ours(step: Step<K>) | Theirs(key: K, counts: Counts)

  datatype Shadow<K> = Shadow(replica: Replica<K>, hist: Hist<K>)

  function Extended<K>(h: Hist<K>, k: K, c: Counts): Hist<K> {
    h[k := HistoryOf(h, k) + [Latest(h, k).Plus(c)]]
  }

  /** `days` tells the day of a rollup, which is asked for when floors are pruned. */
  function Follow<K>(s: Shadow<K>, days: K -> Option<int>, m: Move<K>): Shadow<K> {
    match m
    case Ours(step) => Shadow(StepReplica(s.replica, s.hist, days, step), StepHist(s.replica, s.hist, step))
    case Theirs(k, c) => s.(hist := Extended(s.hist, k, c))
  }

  function FollowAll<K>(s: Shadow<K>, days: K -> Option<int>, moves: seq<Move<K>>): Shadow<K> {
    if moves == [] then s else Follow(FollowAll(s, days, moves[..|moves| - 1]), days, moves[|moves| - 1])
  }

  lemma FollowSnoc<K>(s: Shadow<K>, days: K -> Option<int>, moves: seq<Move<K>>, m: Move<K>)
    ensures FollowAll(s, days, moves + [m]) == Follow(FollowAll(s, days, moves), days, m)
  {
    assert (moves + [m])[..|moves|] == moves;
  }

  /** What every replica keeps of one rollup: each request counted is settled, buffered, drained or
      failed, and the floor covers what is settled and is no higher than the rollup. */
  ghost predicate Keeps<K>(s: Shadow<K>, days: K -> Option<int>, k: K) {
    KeptAt(s.replica, k) && FlooredAt(s.replica, s.hist, days, k) && Grown(HistoryOf(s.hist, k))
  }

  /** Whoever writes in between, the replica keeps that, and the flusher works on what it read. */
  lemma {:induction false} FollowKeeps<K(!new)>(s: Shadow<K>, days: K -> Option<int>, moves: seq<Move<K>>, k: K)
    requires Keeps(s, days, k) && WorkOk(s.replica, s.hist)
    ensures var s' := FollowAll(s, days, moves); Keeps(s', days, k) && WorkOk(s'.replica, s'.hist)
  {
    if moves != [] {
      var n := |moves| - 1;
      FollowKeeps(s, days, moves[..n], k);
      var before := FollowAll(s, days, moves[..n]);
      match moves[n]
      case Ours(step) =>
        StepKeptAt(before.replica, before.hist, days, step, k);
        StepFlooredAt(before.replica, before.hist, days, step, k);
        LandHist(before.replica, before.hist, step, k);
        StepWorkOk(before.replica, before.hist, days, step);
      case Theirs(at, c) =>
        TheirsKeeps(before, days, at, c, k);
        TheirsWorkOk(before.replica, before.hist, at, c);
    }
  }

  lemma TheirsKeeps<K>(s: Shadow<K>, days: K -> Option<int>, at: K, c: Counts, k: K)
    requires Keeps(s, days, k)
    ensures Keeps(s.(hist := Extended(s.hist, at, c)), days, k)
  {
    var past, past' := HistoryOf(s.hist, k), HistoryOf(Extended(s.hist, at, c), k);
    if at == k { assert LatestOf(past').allowed == LatestOf(past).allowed + c.allowed; }
  }

  lemma TheirsWorkOk<K(!new)>(r: Replica<K>, h: Hist<K>, k: K, c: Counts)
    requires WorkOk(r, h)
    ensures WorkOk(r, Extended(h, k, c))
  {
    if r.work.HasRead? && r.work.key == k {
      assert HistoryOf(Extended(h, k, c), k)[..r.work.version] == HistoryOf(h, k)[..r.work.version];
    }
  }

  /** The entry's write landed, and its floor is still to raise. */
  function Wrote<K>(r: Replica<K>, k: K, total: nat): Replica<K> {
    var c := CountsAt(r.batch, k);
    r.(batch := r.batch - {k}, settled := Plussed(r.settled, k, c), work := Landed(k, total, c.allowed))
  }

  lemma FloorFinishes<K>(r: Replica<K>, h: Hist<K>, days: K -> Option<int>, k: K, total: nat, tries: nat)
    ensures Follow(Shadow(Wrote(r.(work := Attempt(k, tries)), k, total), h), days, Ours(Floor)) == Shadow(Finished(r, k, total), h)
  {
  }

  /** The entry's write landed and its floor is raised. */
  function Finished<K>(r: Replica<K>, k: K, total: nat): Replica<K> {
    r.(batch := r.batch - {k}, settled := Plussed(r.settled, k, CountsAt(r.batch, k)), floors := Raised(r.floors, k, total),
       work := Choosing)
  }

  /** An answer that did not land ends the entry, or its attempt. */
  function Refused<K>(r: Replica<K>, fault: bool): Replica<K>
    requires r.work.HasRead?
  {
    if fault || r.work.tries == 4 then Fail(r, r.work.key) else r.(work := Attempt(r.work.key, r.work.tries + 1))
  }

  lemma GetReads<K>(s: Shadow<K>, days: K -> Option<int>, fault: bool)
    requires s.replica.work.Attempt?
    ensures var k := s.replica.work.key;
            Follow(s, days, Ours(Get(fault)))
            == s.(replica := if fault then Fail(s.replica, k)
                             else s.replica.(work := HasRead(k, s.replica.work.tries, |HistoryOf(s.hist, k)|, Latest(s.hist, k))))
  {
  }

  lemma WriteLands<K>(s: Shadow<K>, days: K -> Option<int>)
    requires s.replica.work.HasRead? && s.replica.work.version == |HistoryOf(s.hist, s.replica.work.key)|
    requires s.replica.work.seen == Latest(s.hist, s.replica.work.key)
    ensures var k := s.replica.work.key;
            Follow(s, days, Ours(Write(false)))
            == Shadow(Land(s.replica, k, s.replica.work.seen), Extended(s.hist, k, CountsAt(s.replica.batch, k)))
  {
  }

  lemma WriteRefused<K>(s: Shadow<K>, days: K -> Option<int>, fault: bool)
    requires s.replica.work.HasRead? && (fault || s.replica.work.version != |HistoryOf(s.hist, s.replica.work.key)|)
    ensures Follow(s, days, Ours(Write(fault))) == s.(replica := Refused(s.replica, fault))
  {
  }
}
