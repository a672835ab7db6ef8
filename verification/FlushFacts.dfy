/** What a flush does to all entries of a buffer, whatever their keys are: the facts behind the loop of
    authz/usage.go, Flush. `name` gives the rollup of a key, if the key has one. */
module FlushFacts {
  import opened Wrappers
  import opened Usage
  import opened RollupServer
  import P = UsageProtocol
  import S = Shadow

  ghost predicate AllNamed<K(!new), N>(name: K -> Option<N>, counts: map<K, Counts>) {
    forall k :: k in counts ==> name(k).Some?
  }

  /** Floors after some of the counts landed: raised to at least what landed, and otherwise unchanged. */
  predicate FlooredOne<K(==)>(before: map<K, nat>, after: map<K, nat>, counts: map<K, Counts>, left: set<K>,
                              failed: map<K, Counts>, k: K) {
    if k in counts && k !in left && k !in failed
    then FloorAt(after, k) >= Max(FloorAt(before, k), counts[k].allowed)
    else FloorAt(after, k) == FloorAt(before, k)
  }

  function Max(a: nat, b: nat): nat { if a > b then a else b }

  ghost predicate Floored<K(!new)>(before: map<K, nat>, after: map<K, nat>, counts: map<K, Counts>, left: set<K>,
                                   failed: map<K, Counts>) {
    forall k: K :: FlooredOne(before, after, counts, left, failed, k)
  }

  /** What an entry adds to its rollup. */
  function Share(ok: bool, c: Counts): Counts { if ok then c else Zero() }

  /** The counts that have failed after one more entry. */
  function After<K>(counts: map<K, Counts>, failed: map<K, Counts>, k: K, ok: bool): map<K, Counts> {
    if ok then failed else failed[k := CountsAt(counts, k)]
  }

  lemma FlooredStep<K(!new)>(before: map<K, nat>, now: map<K, nat>, after: map<K, nat>, counts: map<K, Counts>, left: set<K>,
                             failed: map<K, Counts>, failed': map<K, Counts>, k: K, ok: bool, written: nat)
    requires failed' == After(counts, failed, k, ok)
    requires Floored(before, now, counts, left, failed) && k in left && k in counts && k !in failed
    requires after == if ok then Raised(now, k, written) else now
    requires ok ==> counts[k].allowed <= written
    ensures Floored(before, after, counts, left - {k}, failed')
  {
    forall x ensures FlooredOne(before, after, counts, left - {k}, failed', x) {
      assert FlooredOne(before, now, counts, left, failed, x);
    }
  }

  lemma AddsZero(c: Counts)
    ensures Adds(Zero(), c, c) && Adds(c, Zero(), c)
  {
  }

  lemma Accounted<K>(counts: map<K, Counts>, failed: map<K, Counts>, k: K)
    requires k in failed ==> k in counts && failed[k] == counts[k]
    ensures Adds(Landed(counts, {}, failed, k), CountsAt(failed, k), CountsAt(counts, k))
  {
    if k in counts { AddsZero(counts[k]); } else { AddsZero(Zero()); }
  }

  /** What of a drained key has landed, with some keys left and some failed. */
  function Landed<K>(counts: map<K, Counts>, left: set<K>, failed: map<K, Counts>, k: K): Counts {
    if k in counts && k !in left && k !in failed then counts[k] else Zero()
  }

  predicate Balanced<K, N>(m: World<N>, m': World<N>, counts: map<K, Counts>, left: set<K>, failed: map<K, Counts>,
                           name: K -> Option<N>, k: K) {
    name(k).Some? ==> Balance(m, m', name(k).value, Landed(counts, left, failed, k))
  }

  ghost predicate Progress<K(!new), N>(m: World<N>, m': World<N>, counts: map<K, Counts>, left: set<K>, failed: map<K, Counts>,
                                       name: K -> Option<N>) {
    forall k: K :: Balanced(m, m', counts, left, failed, name, k)
  }

  lemma ProgressStep<K(!new), N(!new)>(m: World<N>, m': World<N>, m'': World<N>, counts: map<K, Counts>, left: set<K>,
                                       failed: map<K, Counts>, failed': map<K, Counts>, name: K -> Option<N>, k: K, ok: bool)
    requires failed' == After(counts, failed, k, ok) && Injective(name) && name(k).Some?
    requires Progress(m, m', counts, left, failed, name) && k in left && k in counts && k !in failed
    requires Added(m', m'', name(k).value, Share(ok, counts[k]))
    ensures Progress(m, m'', counts, left - {k}, failed', name)
  {
    forall x: K ensures Balanced(m, m'', counts, left - {k}, failed', name, x) {
      if name(x).Some? {
        assert Balanced(m, m', counts, left, failed, name, x);
        assert AddedAt(m', m'', name(x).value, name(k).value, Share(ok, counts[k]));
        LandedStep(counts, left, failed, k, ok, x);
        BalanceChain(m, m', m'', name(x).value, Landed(counts, left, failed, x), OneOf(counts, k, ok, x),
                     Landed(counts, left - {k}, failed', x));
      }
    }
  }

  function OneOf<K(==)>(counts: map<K, Counts>, k: K, ok: bool, x: K): Counts {
    if x == k && ok then CountsAt(counts, k) else Zero()
  }

  lemma LandedStep<K>(counts: map<K, Counts>, left: set<K>, failed: map<K, Counts>, k: K, ok: bool, x: K)
    requires k in left && k in counts && k !in failed
    ensures Landed(counts, left - {k}, if ok then failed else failed[k := counts[k]], x)
            == Landed(counts, left, failed, x).Plus(OneOf(counts, k, ok, x))
  {
  }

  /** The counts still to flush. */
  function Only<K>(counts: map<K, Counts>, left: set<K>): map<K, Counts> { map k | k in left && k in counts :: counts[k] }

  lemma OnlyLess<K>(counts: map<K, Counts>, left: set<K>, k: K)
    ensures Only(counts, left) - {k} == Only(counts, left - {k})
  {
    assert (Only(counts, left) - {k}).Keys == Only(counts, left - {k}).Keys;
  }

  lemma OnlyAllOrNone<K>(counts: map<K, Counts>)
    ensures Only(counts, counts.Keys) == counts && Only(counts, {}) == map[]
  {
    assert Only(counts, counts.Keys).Keys == counts.Keys;
  }

  /** The replica is choosing among what is left of the drained counts; the others have landed or failed. */
  predicate Drains<K(==)>(rep: P.Replica<K>, counts: map<K, Counts>, left: set<K>, failed: map<K, Counts>) {
    rep.work.Choosing? && rep.batch == Only(counts, left) && rep.failed == failed
  }

  lemma DrainsStep<K>(rep: P.Replica<K>, rep': P.Replica<K>, counts: map<K, Counts>, left: set<K>, failed: map<K, Counts>,
                      failed': map<K, Counts>, k: K, ok: bool, total: nat)
    requires failed' == After(counts, failed, k, ok) && k in left && k in counts && Drains(rep, counts, left, failed)
    requires rep' == if ok then S.Finished(rep, k, total) else P.Fail(rep, k)
    ensures Drains(rep', counts, left - {k}, failed')
  {
    OnlyLess(counts, left, k);
  }

  /** What has become of the drained counts when only `left` are still to flush. */
  ghost predicate Flushing<K(!new), N(!new)>(m: World<N>, m': World<N>, floors: map<K, nat>, rep: P.Replica<K>,
                                             counts: map<K, Counts>, left: set<K>, failed: map<K, Counts>,
                                             name: K -> Option<N>) {
    && left <= counts.Keys && FailedOk(counts, left, failed)
    && Progress(m, m', counts, left, failed, name) && Floored(floors, rep.floors, counts, left, failed)
    && Drains(rep, counts, left, failed)
  }

  lemma FlushingStarts<K(!new), N(!new)>(m: World<N>, rep: P.Replica<K>, counts: map<K, Counts>, name: K -> Option<N>)
    requires rep.work.Choosing? && rep.batch == counts && rep.failed == map[]
    ensures Flushing(m, m, rep.floors, rep, counts, counts.Keys, map[], name)
  {
    OnlyAllOrNone(counts);
  }

  lemma FlushingHolds<K(!new), N(!new)>(m: World<N>, m': World<N>, floors: map<K, nat>, rep: P.Replica<K>,
                                        counts: map<K, Counts>, left: set<K>, failed: map<K, Counts>, name: K -> Option<N>, k: K)
    requires Flushing(m, m', floors, rep, counts, left, failed, name) && k in left && AllNamed(name, counts)
    ensures k in counts && name(k).Some? && rep.work.Choosing? && k in rep.batch && rep.batch[k] == counts[k]
  {
  }

  /** Requests counted meanwhile change nothing of that. */
  lemma FlushingCounted<K(!new), N(!new)>(m: World<N>, m': World<N>, floors: map<K, nat>, rep: P.Replica<K>, rep': P.Replica<K>,
                                          counts: map<K, Counts>, left: set<K>, failed: map<K, Counts>, name: K -> Option<N>)
    requires Flushing(m, m', floors, rep, counts, left, failed, name) && OnlyCounted(rep, rep')
    ensures Flushing(m, m', floors, rep', counts, left, failed, name)
  {
  }

  predicate OnlyCounted<K(==)>(rep: P.Replica<K>, rep': P.Replica<K>) {
    rep' == rep.(counts := rep'.counts, added := rep'.added)
  }

  lemma FlushingStep<K(!new), N(!new)>(m: World<N>, m': World<N>, m'': World<N>, floors: map<K, nat>, rep: P.Replica<K>,
                                       rep': P.Replica<K>, counts: map<K, Counts>, left: set<K>, failed: map<K, Counts>,
                                       failed': map<K, Counts>, name: K -> Option<N>, k: K, ok: bool, written: nat)
    requires failed' == After(counts, failed, k, ok) && Injective(name) && AllNamed(name, counts)
    requires Flushing(m, m', floors, rep, counts, left, failed, name) && k in left
    requires Added(m', m'', name(k).value, Share(ok, counts[k])) && (ok ==> counts[k].allowed <= written)
    requires rep' == if ok then S.Finished(rep, k, written) else P.Fail(rep, k)
    ensures Flushing(m, m'', floors, rep', counts, left - {k}, failed', name)
  {
    FlooredStep(floors, rep.floors, rep'.floors, counts, left, failed, failed', k, ok, written);
    ProgressStep(m, m', m'', counts, left, failed, failed', name, k, ok);
    DrainsStep(rep, rep', counts, left, failed, failed', k, ok, written);
    FailedStep(counts, left, failed, failed', k, ok);
  }

  lemma FailedStep<K>(counts: map<K, Counts>, left: set<K>, failed: map<K, Counts>, failed': map<K, Counts>, k: K, ok: bool)
    requires failed' == After(counts, failed, k, ok) && k in left && left <= counts.Keys
    requires FailedOk(counts, left, failed)
    ensures FailedOk(counts, left - {k}, failed')
  {
  }

  predicate FailedOk<K(==)>(counts: map<K, Counts>, left: set<K>, failed: map<K, Counts>) {
    failed.Keys <= counts.Keys - left && forall k :: k in failed ==> failed[k] == counts[k]
  }

  // ----- A whole flush ------------------------------------------------------------------------------

  lemma RestoreEnds<K(!new)>(s: S.Shadow<K>, days: K -> Option<int>, counts: map<K, Counts>, failed: map<K, Counts>)
    requires Drains(s.replica, counts, {}, failed)
    ensures S.Follow(s, days, S.Ours(P.Restore)).replica
            == s.replica.(counts := Merged(s.replica.counts, failed), failed := map[], work := P.Idle)
    ensures s.replica.batch == map[]
  {
    OnlyAllOrNone(counts);
  }

  /** The rollup's own gain plus what is buffered after is what was buffered before. */
  ghost predicate Settled<K, N>(m: World<N>, counts: map<K, Counts>, m': World<N>, counts': map<K, Counts>,
                                name: K -> Option<N>, k: K) {
    name(k).Some? ==>
      exists gained: Counts ::
        Balance(m, m', name(k).value, gained) && Adds(gained, CountsAt(counts', k), CountsAt(counts, k))
  }

  ghost predicate AllSettled<K(!new), N>(m: World<N>, counts: map<K, Counts>, m': World<N>, counts': map<K, Counts>,
                                         name: K -> Option<N>) {
    forall k: K :: Settled(m, counts, m', counts', name, k)
  }

  lemma FlushingSettles<K(!new), N>(m: World<N>, m': World<N>, counts: map<K, Counts>, failed: map<K, Counts>, name: K -> Option<N>)
    requires Progress(m, m', counts, {}, failed, name)
    requires forall k :: k in failed ==> k in counts && failed[k] == counts[k]
    ensures AllSettled(m, counts, m', failed, name)
  {
    forall k: K ensures Settled(m, counts, m', failed, name, k) {
      assert Balanced(m, m', counts, {}, failed, name, k);
      Accounted(counts, failed, k);
    }
  }

  /** Counted meanwhile, and so neither gained nor failed: what was buffered and what was counted is what
      the rollup gained and what is buffered now. */
  lemma MeanwhileSettles<K(!new), N>(m: World<N>, counts: map<K, Counts>, m': World<N>, failed: map<K, Counts>,
                                     more: map<K, Counts>, name: K -> Option<N>)
    requires AllSettled(m, counts, m', failed, name)
    ensures AllSettled(m, Merged(counts, more), m', Merged(more, failed), name)
  {
    forall k: K ensures Settled(m, Merged(counts, more), m', Merged(more, failed), name, k) {
      if name(k).Some? {
        assert Settled(m, counts, m', failed, name, k);
        var gained: Counts :|
          Balance(m, m', name(k).value, gained) && Adds(gained, CountsAt(failed, k), CountsAt(counts, k));
        MergedAt(counts, more, k);
        MergedAt(more, failed, k);
        AddsMore(gained, CountsAt(failed, k), CountsAt(counts, k), CountsAt(more, k));
      }
    }
  }

  lemma AddsMore(gained: Counts, failed: Counts, counts: Counts, more: Counts)
    requires Adds(gained, failed, counts)
    ensures Adds(gained, more.Plus(failed), counts.Plus(more))
  {
  }
}
