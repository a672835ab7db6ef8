/** Runs of all replicas together, and what holds in every state they reach. */
module UsageRuns {
  import opened Wrappers
  import opened Usage
  import opened UsageProtocol

  datatype State<K> = State(hist: Hist<K>, replicas: seq<Replica<K>>)

  datatype Action<K> = Action(who: nat, step: Step<K>)

  /** No rollups and idle replicas, one for each clock. */
  function Start<K>(clocks: seq<int>): State<K> {
    State(map[], seq(|clocks|, i requires 0 <= i < |clocks| => NewReplica(clocks[i])))
  }

  function Apply<K>(st: State<K>, days: K -> Option<int>, a: Action<K>): State<K> {
    if a.who < |st.replicas| then
      var r := st.replicas[a.who];
      State(StepHist(r, st.hist, a.step), st.replicas[a.who := StepReplica(r, st.hist, days, a.step)])
    else st
  }

  function Run<K>(st: State<K>, days: K -> Option<int>, actions: seq<Action<K>>): State<K> {
    if actions == [] then st else Apply(Run(st, days, actions[..|actions| - 1]), days, actions[|actions| - 1])
  }

  function Of(c: Counts, counter: Counter): nat {
    match counter
    case CounterAllowed => c.allowed
    case CounterDeniedRate => c.deniedRate
    case CounterDeniedQuota => c.deniedQuota
  }

  function Added<K>(r: Replica<K>, k: K, c: Counter): nat { Of(CountsAt(r.added, k), c) }

  function Settled<K>(r: Replica<K>, k: K, c: Counter): nat { Of(CountsAt(r.settled, k), c) }

  /** What a replica holds of its own counts: buffered, drained, or drained and failed. */
  function Held<K>(r: Replica<K>, k: K, c: Counter): nat {
    Of(CountsAt(r.counts, k), c) + Of(CountsAt(r.batch, k), c) + Of(CountsAt(r.failed, k), c)
  }

  function AllSettled<K>(rs: seq<Replica<K>>, k: K, c: Counter): nat {
    if rs == [] then 0 else AllSettled(rs[..|rs| - 1], k, c) + Settled(rs[|rs| - 1], k, c)
  }

  function AllHeld<K>(rs: seq<Replica<K>>, k: K, c: Counter): nat {
    if rs == [] then 0 else AllHeld(rs[..|rs| - 1], k, c) + Held(rs[|rs| - 1], k, c)
  }

  function AllAdded<K>(rs: seq<Replica<K>>, k: K, c: Counter): nat {
    if rs == [] then 0 else AllAdded(rs[..|rs| - 1], k, c) + Added(rs[|rs| - 1], k, c)
  }

  /** How often the run has counted a request of the key on the counter. */
  function Adds<K(==)>(actions: seq<Action<K>>, replicas: nat, k: K, c: Counter): nat {
    if actions == [] then 0
    else
      var a := actions[|actions| - 1];
      Adds(actions[..|actions| - 1], replicas, k, c) + (if a.who < replicas && a.step == Count(k, c) then 1 else 0)
  }

  predicate GainedAt(latest: Counts, latest': Counts, settled: Counts, settled': Counts, c: Counter) {
    Of(latest', c) + Of(settled, c) == Of(latest, c) + Of(settled', c)
  }

  /** What a step adds to a rollup is what its replica then counts as settled. */
  lemma StepGain<K(!new)>(r: Replica<K>, h: Hist<K>, days: K -> Option<int>, s: Step<K>, k: K, c: Counter)
    requires WorkOk(r, h) && Grown(HistoryOf(h, k))
    ensures GainedAt(Latest(h, k), Latest(StepHist(r, h, s), k),
                     CountsAt(r.settled, k), CountsAt(StepReplica(r, h, days, s).settled, k), c)
  {
    LandHist(r, h, s, k);
    if Lands(h, s, r.work) {
      PlussedAt(r.settled, r.work.key, CountsAt(r.batch, r.work.key), k);
    } else {
    }
  }

  lemma StepAdded<K>(r: Replica<K>, h: Hist<K>, days: K -> Option<int>, s: Step<K>, k: K, c: Counter)
    ensures Added(StepReplica(r, h, days, s), k, c) == Added(r, k, c) + (if s == Count(k, c) then 1 else 0)
  {
  }

  lemma {:induction false} SettledUpdate<K>(rs: seq<Replica<K>>, i: nat, r: Replica<K>, k: K, c: Counter)
    requires i < |rs|
    ensures AllSettled(rs[i := r], k, c) + Settled(rs[i], k, c) == AllSettled(rs, k, c) + Settled(r, k, c)
  {
    var n := |rs| - 1;
    assert rs[i := r][..n] == if i == n then rs[..n] else rs[..n][i := r];
    if i < n { SettledUpdate(rs[..n], i, r, k, c); }
  }

  lemma {:induction false} AddedUpdate<K>(rs: seq<Replica<K>>, i: nat, r: Replica<K>, k: K, c: Counter)
    requires i < |rs|
    ensures AllAdded(rs[i := r], k, c) + Added(rs[i], k, c) == AllAdded(rs, k, c) + Added(r, k, c)
  {
    var n := |rs| - 1;
    assert rs[i := r][..n] == if i == n then rs[..n] else rs[..n][i := r];
    if i < n { AddedUpdate(rs[..n], i, r, k, c); }
  }

  // ----- The invariant ----------------------------------------------------------------------------

  predicate Accounted<K>(st: State<K>, k: K, c: Counter) {
    Of(Latest(st.hist, k), c) == AllSettled(st.replicas, k, c)
  }

  ghost predicate AllOk<K(!new)>(rs: seq<Replica<K>>, h: Hist<K>, days: K -> Option<int>) {
    forall i :: 0 <= i < |rs| ==> ReplicaOk(rs[i], h, days)
  }

  ghost predicate Good<K(!new)>(st: State<K>, days: K -> Option<int>) {
    && HistOk(st.hist) && AllOk(st.replicas, st.hist, days)
    && forall k, c :: Accounted(st, k, c)
  }

  /** Another replica's write leaves a replica's own facts standing. */
  lemma Frame<K(!new)>(r: Replica<K>, h: Hist<K>, h': Hist<K>, days: K -> Option<int>)
    requires ReplicaOk(r, h, days) && forall k :: Extends(HistoryOf(h, k), HistoryOf(h', k))
    ensures ReplicaOk(r, h', days)
  {
    forall k ensures FlooredAt(r, h', days, k) {
      assert FlooredAt(r, h, days, k);
      assert Extends(HistoryOf(h, k), HistoryOf(h', k));
    }
    if r.work.HasRead? {
      var past, past' := HistoryOf(h, r.work.key), HistoryOf(h', r.work.key);
      assert Extends(past, past');
      assert past'[..r.work.version] == past[..r.work.version];
    }
  }

  lemma StepOk<K(!new)>(r: Replica<K>, h: Hist<K>, days: K -> Option<int>, s: Step<K>)
    requires ReplicaOk(r, h, days) && HistOk(h)
    ensures ReplicaOk(StepReplica(r, h, days, s), StepHist(r, h, s), days) && HistOk(StepHist(r, h, s))
    ensures forall k :: Extends(HistoryOf(h, k), HistoryOf(StepHist(r, h, s), k))
  {
    StepWorkOk(r, h, days, s);
    forall k ensures KeptAt(StepReplica(r, h, days, s), k) { StepKeptAt(r, h, days, s, k); }
    forall k ensures FlooredAt(StepReplica(r, h, days, s), StepHist(r, h, s), days, k) { StepFlooredAt(r, h, days, s, k); }
    forall k ensures Extends(HistoryOf(h, k), HistoryOf(StepHist(r, h, s), k)) && Grown(HistoryOf(StepHist(r, h, s), k)) {
      LandHist(r, h, s, k);
    }
  }

  lemma ApplyAccounted<K(!new)>(st: State<K>, days: K -> Option<int>, a: Action<K>, k: K, c: Counter)
    requires Good(st, days)
    ensures Accounted(Apply(st, days, a), k, c)
  {
    assert Accounted(st, k, c);
    if a.who < |st.replicas| {
      var r := st.replicas[a.who];
      assert ReplicaOk(r, st.hist, days);
      StepGain(r, st.hist, days, a.step, k, c);
      SettledUpdate(st.replicas, a.who, StepReplica(r, st.hist, days, a.step), k, c);
    }
  }

  lemma ApplyOk<K(!new)>(st: State<K>, days: K -> Option<int>, a: Action<K>)
    requires Good(st, days)
    ensures Good(Apply(st, days, a), days)
  {
    var st' := Apply(st, days, a);
    forall k, c ensures Accounted(st', k, c) { ApplyAccounted(st, days, a, k, c); }
    if a.who < |st.replicas| {
      StepOk(st.replicas[a.who], st.hist, days, a.step);
      forall i | 0 <= i < |st.replicas| ensures ReplicaOk(st'.replicas[i], st'.hist, days) {
        if i != a.who { Frame(st.replicas[i], st.hist, st'.hist, days); }
      }
    }
  }

  lemma {:induction false} NothingYet<K>(rs: seq<Replica<K>>, k: K, c: Counter)
    requires forall i :: 0 <= i < |rs| ==> rs[i].settled == map[] && rs[i].added == map[]
    ensures AllSettled(rs, k, c) == 0 && AllAdded(rs, k, c) == 0
  {
    if rs != [] { NothingYet(rs[..|rs| - 1], k, c); }
  }

  lemma StartOk<K(!new)>(clocks: seq<int>, days: K -> Option<int>)
    ensures Good(Start(clocks), days)
  {
    var st := Start<K>(clocks);
    forall k, c ensures Accounted(st, k, c) { NothingYet(st.replicas, k, c); }
  }

  lemma {:induction false} RunOk<K(!new)>(clocks: seq<int>, days: K -> Option<int>, actions: seq<Action<K>>)
    ensures Good(Run(Start(clocks), days, actions), days)
    ensures |Run(Start(clocks), days, actions).replicas| == |clocks|
  {
    if actions == [] {
      StartOk(clocks, days);
    } else {
      var before := actions[..|actions| - 1];
      RunOk(clocks, days, before);
      ApplyOk(Run(Start(clocks), days, before), days, actions[|actions| - 1]);
    }
  }

  lemma {:induction false} RunAdded<K(!new)>(clocks: seq<int>, days: K -> Option<int>,
                                                 actions: seq<Action<K>>, k: K, c: Counter)
    ensures AllAdded(Run(Start(clocks), days, actions).replicas, k, c) == Adds(actions, |clocks|, k, c)
  {
    if actions == [] {
      NothingYet(Start<K>(clocks).replicas, k, c);
    } else {
      var before := actions[..|actions| - 1];
      var a := actions[|actions| - 1];
      RunAdded(clocks, days, before, k, c);
      RunOk(clocks, days, before);
      var st := Run(Start(clocks), days, before);
      if a.who < |st.replicas| {
        var r' := StepReplica(st.replicas[a.who], st.hist, days, a.step);
        StepAdded(st.replicas[a.who], st.hist, days, a.step, k, c);
        AddedUpdate(st.replicas, a.who, r', k, c);
      }
    }
  }

  lemma {:induction false} AllParts<K(!new)>(rs: seq<Replica<K>>, h: Hist<K>, days: K -> Option<int>, k: K, c: Counter)
    requires AllOk(rs, h, days)
    ensures AllAdded(rs, k, c) == AllSettled(rs, k, c) + AllHeld(rs, k, c)
  {
    if rs != [] {
      var r := rs[|rs| - 1];
      AllParts(rs[..|rs| - 1], h, days, k, c);
      assert KeptAt(r, k);
    }
  }

  /** In every state of every run, each rollup's counter and all that replicas still hold of it are
      exactly the requests counted: conflicts, create races, failed calls, giving up and restoring
      lose nothing and count nothing twice. */
  lemma {:induction false} Conservation<K(!new)>(clocks: seq<int>, days: K -> Option<int>,
                                                 actions: seq<Action<K>>, k: K, c: Counter)
    ensures var st := Run(Start(clocks), days, actions);
            Of(Latest(st.hist, k), c) + AllHeld(st.replicas, k, c) == Adds(actions, |clocks|, k, c)
  {
    var st := Run(Start(clocks), days, actions);
    RunOk(clocks, days, actions);
    RunAdded(clocks, days, actions, k, c);
    assert Accounted(st, k, c);
    AllParts(st.replicas, st.hist, days, k, c);
  }
}
