/** An App's builds over whole runs: jobs started, finished, replayed and removed in any order, writes
    that fail, and a git source that changes. Reconciles are serial. */
module BuildRuns {
  import opened Wrappers
  import opened Builds

  /** The App and its jobs. `used` are the names ever given, `retry` the jobs whose last reconcile
      failed; `version` counts the App's writes, and `readAt` is the version a job's starter had read. */
  datatype State = State(app: App, jobs: map<int, Job>, used: set<int>, retry: set<int>, version: nat, readAt: map<int, nat>)

  datatype Step =
    | Create(job: Job)
    | Pend(name: int)
    | Progress(name: int, progress: Progress)
    | Deleting(name: int)
    | Remove(name: int)
    | ChangeSource(git: Option<int>)
    | ClearDetached
    | Reconcile(name: int, w: Faults)

  function WithApp(s: State, app: App): State {
    s.(app := app, version := if app == s.app then s.version else s.version + 1)
  }

  /** A new job has a new name, and if it carries no label it is of the time before the builder wrote
      labels and sources, so that it has no source either. */
  predicate MayCreate(s: State, job: Job) {
    job.name !in s.used && !job.deleting && job.progress.Waiting? && (job.uid.None? ==> !job.source.Fingerprint?)
  }

  /** The job is created later than the one deployed then: no build is applied within the second its job
      was created in. And it comes after the jobs without a label, or is one of them. */
  predicate Later(s: State, job: Job) {
    && (s.app.deployed.Some? ==> s.app.deployed.value.created < job.created)
    && if job.uid.Some? then AfterUnlabelled(s.jobs, job.created) else BeforeLabels(s)
  }

  /** The jobs without a label are older than every job that has one. */
  predicate AfterUnlabelled(jobs: map<int, Job>, created: int) {
    forall n :: n in jobs && jobs[n].uid.None? ==> jobs[n].created < created
  }

  predicate BeforeLabels(s: State) { s.app.deployed.None? && forall n :: n in s.jobs ==> s.jobs[n].uid.None? }

  predicate Follows(before: Progress, after: Progress) {
    match before
    case Waiting => true
    case Active => !after.Waiting?
    case _ => before == after
  }

  /** What a job's starter writes; before labels the status did not name builds. */
  function PendingFor(job: Job): BuildStatus {
    if job.uid.Some? then StatusFor(job, PhasePending) else BuildStatus(PhasePending, None, None)
  }

  /** One step; a step that is not possible does nothing. */
  ghost function Apply(s: State, step: Step): State {
    match step
    case Create(job) =>
      if MayCreate(s, job)
      then s.(jobs := s.jobs[job.name := job], used := s.used + {job.name}, readAt := s.readAt[job.name := s.version])
      else s
    case Pend(n) =>
      // The starter's status write is refused when the App has changed since it was read.
      if n in s.jobs && n in s.readAt && s.readAt[n] == s.version && (s.jobs[n].uid.Some? ==> s.jobs[n].uid.value == s.app.uid)
      then WithApp(s, s.app.(status := Some(PendingFor(s.jobs[n])))) else s
    case Progress(n, progress) =>
      if n in s.jobs && Follows(s.jobs[n].progress, progress)
      then s.(jobs := s.jobs[n := s.jobs[n].(progress := progress)]) else s
    case Deleting(n) => if n in s.jobs then s.(jobs := s.jobs[n := s.jobs[n].(deleting := true)]) else s
    case Remove(n) => s.(jobs := s.jobs - {n})
    case ChangeSource(git) => WithApp(s, s.app.(git := git))
    case ClearDetached => if s.app.git.None? then WithApp(s, s.app.(status := None)) else s
    case Reconcile(n, w) =>
      var r := Reconciled(s.app, s.jobs, n, w);
      WithApp(s, r.0).(retry := if r.1 then s.retry + {n} else s.retry - {n})
  }

  ghost function Run(s: State, steps: seq<Step>): State {
    if steps == [] then s else Apply(Run(s, steps[..|steps| - 1]), steps[|steps| - 1])
  }

  /** At least as new as a job, in the order of creation time and then name. */
  predicate AtLeast(created: int, name: int, d: Job) { created > d.created || (created == d.created && name >= d.name) }

  /** The status remembers the deployed build or a newer one. */
  predicate Remembered(app: App) {
    app.deployed.Some? ==>
      && app.status.Some? && app.status.value.build.Some? && app.status.value.jobCreatedAt.Some?
      && AtLeast(app.status.value.jobCreatedAt.value, app.status.value.build.value, app.deployed.value)
  }

  /** The job competes with those of this label, and is at least as new as the deployed build. */
  predicate Holds(job: Job, app: App, uid: Option<int>) {
    job.uid == uid && app.deployed.Some? && AtLeast(job.created, job.name, app.deployed.value)
  }

  /** No job of this label that is older than the deployed build can be applied: one at least as new is
      still listed, or the tracked job is not and the status remembers the deployed build or a newer one. */
  ghost predicate Guarded(app: App, jobs: map<int, Job>, uid: Option<int>) {
    || (Remembered(app) && !TrackedLive(jobs, app.status))
    || exists n :: n in jobs && Holds(jobs[n], app, uid)
  }

  ghost predicate Covered(s: State) { s.app.deployed.Some? ==> Guarded(s.app, s.jobs, Some(s.app.uid)) }

  ghost predicate NamesAreKeys(jobs: map<int, Job>) { forall n :: n in jobs ==> jobs[n].name == n }

  /** A job without a label has no source, and is never applied. */
  ghost predicate Labelled(jobs: map<int, Job>) {
    forall n :: n in jobs && jobs[n].uid.None? ==> !jobs[n].source.Fingerprint?
  }

  /** Names are keys and were given once, and a job without a label is older than labels are. */
  ghost predicate Sound(s: State) {
    && NamesAreKeys(s.jobs) && s.jobs.Keys <= s.used && Labelled(s.jobs)
    && (forall n :: n in s.jobs && s.jobs[n].uid.Some? ==> AfterUnlabelled(s.jobs, s.jobs[n].created))
    && (s.app.deployed.Some? ==> AfterUnlabelled(s.jobs, s.app.deployed.value.created))
    && (s.app.status.Some? && s.app.status.value.build.Some? ==> s.app.status.value.build.value in s.used)
    && (forall n :: n in s.jobs && n in s.readAt && s.readAt[n] == s.version && s.app.deployed.Some? ==>
          s.app.deployed.value.created < s.jobs[n].created)
    && (forall n :: n in s.readAt ==> s.readAt[n] <= s.version && n in s.used)
  }

  /** The deployed build does not move backwards. */
  predicate Forward(before: App, after: App) {
    before.deployed.Some? ==>
      after.deployed.Some? && AtLeast(after.deployed.value.created, after.deployed.value.name, before.deployed.value)
  }

  /** A succeeded job of the current source that the guards let pass. */
  ghost predicate Passes(app: App, jobs: map<int, Job>, n: int) {
    && n in jobs && (jobs[n].uid.Some? ==> jobs[n].uid.value == app.uid) && jobs[n].progress.Succeeded?
    && !jobs[n].deleting && !StaleSource(jobs[n], app.git) && !Superseded(jobs, jobs[n])
    && (TrackedLive(jobs, app.status) || !OlderThanTracked(app.status, jobs[n]))
  }

  /** A job that gets past the order checks is at least as new as a build that is guarded. */
  lemma {:induction false} PassingIsNew(app: App, jobs: map<int, Job>, n: int)
    requires NamesAreKeys(jobs) && n in jobs && app.deployed.Some? && Guarded(app, jobs, jobs[n].uid)
    requires !Superseded(jobs, jobs[n]) && (TrackedLive(jobs, app.status) || !OlderThanTracked(app.status, jobs[n]))
    ensures Holds(jobs[n], app, jobs[n].uid)
  {
    var job := jobs[n];
    if !(Remembered(app) && !TrackedLive(jobs, app.status)) {
      var m :| m in jobs && Holds(jobs[m], app, job.uid);
      assert !Supersedes(jobs[m], job);
    }
  }

  lemma {:induction false} ReconcileForward(s: State, n: int, w: Faults)
    requires Sound(s) && Covered(s)
    ensures var s' := Apply(s, Reconcile(n, w)); Forward(s.app, s'.app) && Covered(s')
  {
    var s' := Apply(s, Reconcile(n, w));
    if s'.app != s.app {
      var job := s.jobs[n];
      if s.app.deployed.Some? && job.uid.Some? { PassingIsNew(s.app, s.jobs, n); }
      if s'.app.deployed.Some? && job.uid.Some? { assert s'.jobs[n] == job && Holds(job, s'.app, job.uid); }
    }
    if s.app.deployed.Some? && s'.app.deployed == s.app.deployed && !Remembered(s.app) {
      var m :| m in s.jobs && Holds(s.jobs[m], s.app, Some(s.app.uid));
      assert Holds(s'.jobs[m], s'.app, Some(s'.app.uid));
    }
  }

  lemma ReconcileSound(s: State, n: int, w: Faults)
    requires Sound(s)
    ensures Sound(Apply(s, Reconcile(n, w)))
  {
  }

  /** The steps that keep the deployed build covered by themselves. */
  predicate Harmless(step: Step) { !step.Remove? && !step.ClearDetached? }

  lemma CreateSound(s: State, job: Job)
    requires Sound(s) && Later(s, job)
    ensures Sound(Apply(s, Create(job)))
  {
  }

  lemma PendSound(s: State, n: int)
    requires Sound(s)
    ensures Sound(Apply(s, Pend(n)))
  {
  }

  /** A job that is created is created later than what is there. */
  predicate InOrder(s: State, step: Step) { step.Create? ==> Later(s, step.job) }

  lemma StepSound(s: State, step: Step)
    requires Sound(s) && InOrder(s, step)
    ensures Sound(Apply(s, step))
  {
    match step
    case Reconcile(n, w) => ReconcileSound(s, n, w);
    case Create(job) => CreateSound(s, job);
    case Pend(n) => PendSound(s, n);
    case Progress(n, progress) =>
    case Deleting(n) =>
    case Remove(n) =>
    case ChangeSource(git) =>
    case ClearDetached =>
  }

  lemma {:induction false} StepForward(s: State, step: Step)
    requires Sound(s) && Covered(s)
    ensures Forward(s.app, Apply(s, step).app) && (Harmless(step) ==> Covered(Apply(s, step)))
  {
    var s' := Apply(s, step);
    if step.Reconcile? {
      ReconcileForward(s, step.name, step.w);
    } else if Harmless(step) && s.app.deployed.Some? {
      if step.Pend? && s'.app != s.app {
        assert Holds(s'.jobs[step.name], s'.app, Some(s'.app.uid));
      } else if exists m :: m in s.jobs && Holds(s.jobs[m], s.app, Some(s.app.uid)) {
        var m :| m in s.jobs && Holds(s.jobs[m], s.app, Some(s.app.uid));
        assert m in s'.jobs && Holds(s'.jobs[m], s'.app, Some(s'.app.uid));
      }
    }
  }

  /** If the step removes a job or clears the status, the deployed build stays covered; if it creates one,
      that is later than what is there. */
  ghost predicate KeepsCoverAt(s: State, steps: seq<Step>, i: nat)
    requires i < |steps|
  {
    (!Harmless(steps[i]) ==> Covered(Run(s, steps[..i + 1]))) && InOrder(Run(s, steps[..i]), steps[i])
  }

  ghost predicate KeepsCover(s: State, steps: seq<Step>) { forall i :: 0 <= i < |steps| ==> KeepsCoverAt(s, steps, i) }

  lemma KeepsCoverBefore(s: State, steps: seq<Step>, n: nat)
    requires KeepsCover(s, steps) && n <= |steps|
    ensures KeepsCover(s, steps[..n])
  {
    forall i | 0 <= i < n ensures KeepsCoverAt(s, steps[..n], i) {
      assert KeepsCoverAt(s, steps, i);
      assert steps[..n][..i + 1] == steps[..i + 1] && steps[..n][..i] == steps[..i];
    }
  }

  lemma {:induction false} RunForward(s: State, steps: seq<Step>, i: nat)
    requires Sound(s) && Covered(s) && KeepsCover(s, steps) && i <= |steps|
    ensures Sound(Run(s, steps)) && Covered(Run(s, steps))
    ensures Forward(Run(s, steps[..i]).app, Run(s, steps).app)
  {
    if i == |steps| { assert steps[..i] == steps; }
    if steps != [] {
      var n := |steps| - 1;
      var before := Run(s, steps[..n]);
      KeepsCoverBefore(s, steps, n);
      RunForward(s, steps[..n], if i <= n then i else n);
      assert i <= n ==> steps[..n][..i] == steps[..i];
      assert KeepsCoverAt(s, steps, n) && steps[..n + 1] == steps;
      StepSound(before, steps[n]);
      StepForward(before, steps[n]);
    }
  }

  /** Over every run in which removals and clearings keep the deployed build covered, the build whose
      image is on the App never moves backwards. */
  lemma {:induction false} NeverBackwards(s: State, steps: seq<Step>, i: nat, j: nat)
    requires Sound(s) && Covered(s) && KeepsCover(s, steps) && i <= j <= |steps|
    ensures Forward(Run(s, steps[..i]).app, Run(s, steps[..j]).app)
  {
    KeepsCoverBefore(s, steps, j);
    RunForward(s, steps[..j], i);
    assert steps[..j][..i] == steps[..i];
  }

  // ----- Exactly when the deployed build does not go back -------------------------------------------

  /** The calls up to the write of the App succeed. */
  predicate Writes(w: Faults) { w.job && w.app && w.list && w.update }

  /** Exactly when a completion that is applied does not move the App backwards: when no job competing
      with it shows that it is older, and no saved order that is asked for does. */
  lemma {:induction false} ForwardIffGuarded(app: App, jobs: map<int, Job>, n: int, w: Faults)
    requires NamesAreKeys(jobs) && app.deployed.Some? && Passes(app, jobs, n) && Writes(w)
    ensures Forward(app, Reconciled(app, jobs, n, w).0) <==> Guarded(app, jobs, jobs[n].uid)
  {
    if Guarded(app, jobs, jobs[n].uid) {
      PassingIsNew(app, jobs, n);
    } else {
      assert !Holds(jobs[n], app, jobs[n].uid);
    }
  }

  /** The step applies a completion. */
  ghost predicate Completes(s: State, step: Step) { step.Reconcile? && Writes(step.w) && Passes(s.app, s.jobs, step.name) }

  /** What every step keeps, in whatever order jobs are created. */
  ghost predicate Keyed(s: State) { NamesAreKeys(s.jobs) && Labelled(s.jobs) }

  lemma {:induction false} StepExact(s: State, step: Step)
    requires Keyed(s)
    ensures Forward(s.app, Apply(s, step).app) <==> (Completes(s, step) ==> Covered(s))
  {
    if Completes(s, step) {
      if s.app.deployed.Some? { ForwardIffGuarded(s.app, s.jobs, step.name, step.w); }
    } else {
      assert Apply(s, step).app.deployed == s.app.deployed;
    }
  }

  lemma {:induction false} RunKeyed(s: State, steps: seq<Step>)
    requires Keyed(s)
    ensures Keyed(Run(s, steps))
  {
    if steps != [] { RunKeyed(s, steps[..|steps| - 1]); }
  }

  /** The build deployed after `i` steps is not newer than the one after `j`. */
  ghost predicate ForwardAt(s: State, steps: seq<Step>, i: nat, j: nat)
    requires i <= j <= |steps|
  {
    Forward(Run(s, steps[..i]).app, Run(s, steps[..j]).app)
  }

  /** If the step applies a completion, the deployed build is covered before it. */
  ghost predicate CoveredAt(s: State, steps: seq<Step>, i: nat)
    requires i < |steps|
  {
    Completes(Run(s, steps[..i]), steps[i]) ==> Covered(Run(s, steps[..i]))
  }

  lemma {:induction false} ForwardWhenCovered(s: State, steps: seq<Step>, i: nat, j: nat)
    requires Keyed(s) && i <= j <= |steps| && forall k :: i <= k < j ==> CoveredAt(s, steps, k)
    ensures ForwardAt(s, steps, i, j)
    decreases j
  {
    if i < j {
      ForwardWhenCovered(s, steps, i, j - 1);
      RunKeyed(s, steps[..j - 1]);
      Extend(s, steps, j - 1);
      assert CoveredAt(s, steps, j - 1);
      StepExact(Run(s, steps[..j - 1]), steps[j - 1]);
    }
  }

  /** Exactly when a run never moves the deployed build backwards: when the build is covered before
      every step that applies a completion. */
  lemma {:induction false} NeverBackwardsExactly(s: State, steps: seq<Step>)
    requires Keyed(s)
    ensures (forall i, j :: 0 <= i <= j <= |steps| ==> ForwardAt(s, steps, i, j))
            <==> (forall i :: 0 <= i < |steps| ==> CoveredAt(s, steps, i))
  {
    if forall i :: 0 <= i < |steps| ==> CoveredAt(s, steps, i) {
      forall i, j | 0 <= i <= j <= |steps| ensures ForwardAt(s, steps, i, j) { ForwardWhenCovered(s, steps, i, j); }
    } else {
      var i :| 0 <= i < |steps| && !CoveredAt(s, steps, i);
      RunKeyed(s, steps[..i]);
      Extend(s, steps, i);
      StepExact(Run(s, steps[..i]), steps[i]);
      assert !ForwardAt(s, steps, i, i + 1);
    }
  }

  lemma Extend(s: State, steps: seq<Step>, n: nat)
    requires n < |steps|
    ensures Run(s, steps[..n + 1]) == Apply(Run(s, steps[..n]), steps[n])
  {
    assert steps[..n + 1][..n] == steps[..n];
  }

  // ----- Why the deployed build has to be covered ---------------------------------------------------

  lemma RunSnoc(s: State, steps: seq<Step>, step: Step)
    ensures Run(s, steps + [step]) == Apply(Run(s, steps), step)
  {
    assert (steps + [step])[..|steps|] == steps;
  }

  function Only(jobs: map<int, Job>, n: int): map<int, Job>
    requires n in jobs
  {
    map[n := jobs[n]]
  }

  /** The other jobs can all be removed. */
  lemma {:induction false} RemoveOthers(s: State, n: int) returns (steps: seq<Step>)
    requires n in s.jobs
    ensures Run(s, steps) == s.(jobs := Only(s.jobs, n))
    decreases |s.jobs|
  {
    if s.jobs.Keys == {n} {
      steps := [];
      assert s.jobs == Only(s.jobs, n);
    } else {
      var m := Inhabitant(s.jobs.Keys - {n});
      var fewer := s.jobs - {m};
      assert fewer.Keys == s.jobs.Keys - {m} && |fewer| == |fewer.Keys| < |s.jobs.Keys| == |s.jobs|;
      var rest := RemoveOthers(s.(jobs := fewer), n);
      steps := [Remove(m)] + rest;
      RunCons(s, Remove(m), rest);
    }
  }

  lemma {:induction false} RunCons(s: State, step: Step, rest: seq<Step>)
    ensures Run(s, [step] + rest) == Run(Apply(s, step), rest)
  {
    if rest == [] {
      assert [step] + rest == [step] && [step][..0] == [];
    } else {
      assert ([step] + rest)[..|rest|] == [step] + rest[..|rest| - 1];
      RunCons(s, step, rest[..|rest| - 1]);
    }
  }

  /** Detaching the App from git clears its status; once the source is back, the job may succeed. */
  lemma Detached(s: State, n: int, git: int)
    requires s.jobs.Keys == {n} && !s.jobs[n].progress.Failed?
    ensures var cleared := Apply(Apply(s, ChangeSource(None)), ClearDetached);
            var ready := Apply(Apply(cleared, ChangeSource(Some(git))), Progress(n, Succeeded));
            && ready.app == s.app.(git := Some(git), status := None)
            && ready.jobs == s.jobs[n := s.jobs[n].(progress := Succeeded)]
  {
    var cleared := Apply(Apply(s, ChangeSource(None)), ClearDetached);
    assert cleared.app == s.app.(git := None, status := None) && cleared.jobs == s.jobs;
  }

  /** A lone succeeded job is applied whatever is deployed. */
  lemma GoesBackAlone(before: App, s: State, n: int)
    requires before.deployed.Some? && s.jobs.Keys == {n} && s.jobs[n].name == n && s.app.uid == before.uid
    requires s.jobs[n].uid == Some(s.app.uid) && s.jobs[n].progress.Succeeded? && !s.jobs[n].deleting
    requires s.app.status == None && !StaleSource(s.jobs[n], s.app.git)
    requires !AtLeast(s.jobs[n].created, n, before.deployed.value)
    ensures !Forward(before, Apply(s, Reconcile(n, NoFaults())).app)
  {
    assert !Superseded(s.jobs, s.jobs[n]);
  }

  /** Why removals and clearings have to keep the deployed build covered: once it is not, any listed
      job of the App that has not failed can still come to replace it, older though it is. */
  lemma {:induction false} UncoveredCanGoBack(s: State, n: int) returns (steps: seq<Step>)
    requires NamesAreKeys(s.jobs) && !Covered(s) && s.app.deployed.Some? && n in s.jobs && s.jobs[n].uid == Some(s.app.uid)
    requires !s.jobs[n].deleting && s.jobs[n].source.Fingerprint? && !s.jobs[n].progress.Failed?
    ensures !Forward(s.app, Run(s, steps).app)
  {
    assert !Holds(s.jobs[n], s.app, Some(s.app.uid));
    var git := s.jobs[n].source.of;
    var removals := RemoveOthers(s, n);
    var alone := Run(s, removals);
    Detached(alone, n, git);
    RunSnoc(s, removals, ChangeSource(None));
    var detach := removals + [ChangeSource(None)];
    RunSnoc(s, detach, ClearDetached);
    var clear := detach + [ClearDetached];
    RunSnoc(s, clear, ChangeSource(Some(git)));
    var back := clear + [ChangeSource(Some(git))];
    RunSnoc(s, back, Progress(n, Succeeded));
    var ready := back + [Progress(n, Succeeded)];
    GoesBackAlone(s.app, Run(s, ready), n);
    RunSnoc(s, ready, Reconcile(n, NoFaults()));
    steps := ready + [Reconcile(n, NoFaults())];
  }

  /** A run from an App without builds. */
  function NewApp(uid: int, git: Option<int>): State { State(App(uid, git, None, None, [], None), map[], {}, {}, 0, map[]) }

  function StatusFails(): Faults { NoFaults().(status := false) }

  function FirstJob(): Job { Job(1, 10, Some(7), Fingerprint(1), 101, false, Waiting) }

  function SecondJob(): Job { Job(2, 20, Some(7), Fingerprint(1), 102, false, Waiting) }

  function ThirdJob(): Job { Job(3, 30, Some(7), Fingerprint(1), 103, false, Waiting) }

  /** The second build is deployed but its status write fails; its retry is refused because a third job
      is listed; the third and the second job go, and the first one finishes late. */
  function Lapse(): seq<Step> {
    [Create(FirstJob()), Create(SecondJob()), Progress(2, Succeeded), Reconcile(2, StatusFails()),
     Create(ThirdJob()), Reconcile(2, NoFaults()), Remove(3), Remove(2), Progress(1, Succeeded),
     Reconcile(1, NoFaults())]
  }

  lemma LapseStarts()
    ensures Run(NewApp(7, Some(1)), Lapse()[..3])
            == State(App(7, Some(1), None, None, [], None),
                     map[1 := FirstJob(), 2 := SecondJob().(progress := Succeeded)], {1, 2}, {}, 0, map[1 := 0, 2 := 0])
  {
    var s := NewApp(7, Some(1));
    Extend(s, Lapse(), 0);
    Extend(s, Lapse(), 1);
    Extend(s, Lapse(), 2);
  }

  lemma LapseDeploys()
    ensures var s := Run(NewApp(7, Some(1)), Lapse()[..4]);
            && s.app.deployed == Some(SecondJob().(progress := Succeeded)) && s.app.status == None && s.app.uid == 7
            && s.app.git == Some(1) && s.retry == {2} && s.used == {1, 2}
            && s.jobs == map[1 := FirstJob(), 2 := SecondJob().(progress := Succeeded)]
  {
    var s := NewApp(7, Some(1));
    LapseStarts();
    Extend(s, Lapse(), 3);
    var before := Run(s, Lapse()[..3]);
    assert !Supersedes(before.jobs[1], before.jobs[2]) && !Superseded(before.jobs, before.jobs[2]);
  }

  /** The retry is refused, and no longer pending. */
  lemma LapseRefused()
    ensures var s := Run(NewApp(7, Some(1)), Lapse()[..6]);
            && s.app == Run(NewApp(7, Some(1)), Lapse()[..4]).app && s.retry == {}
            && s.jobs == map[1 := FirstJob(), 2 := SecondJob().(progress := Succeeded), 3 := ThirdJob()]
  {
    var s := NewApp(7, Some(1));
    LapseDeploys();
    Extend(s, Lapse(), 4);
    var third := Run(s, Lapse()[..5]);
    assert third.jobs == map[1 := FirstJob(), 2 := SecondJob().(progress := Succeeded), 3 := ThirdJob()];
    assert Supersedes(third.jobs[3], third.jobs[2]);
    Extend(s, Lapse(), 5);
  }

  lemma LapseLoses()
    ensures var s := Run(NewApp(7, Some(1)), Lapse()[..7]);
            && s.app == Run(NewApp(7, Some(1)), Lapse()[..4]).app && s.retry == {}
            && s.jobs == map[1 := FirstJob(), 2 := SecondJob().(progress := Succeeded)]
  {
    LapseRefused();
    Extend(NewApp(7, Some(1)), Lapse(), 6);
  }

  lemma LapseRemoved()
    ensures var s := Run(NewApp(7, Some(1)), Lapse()[..9]);
            && s.app == Run(NewApp(7, Some(1)), Lapse()[..4]).app
            && s.jobs == map[1 := FirstJob().(progress := Succeeded)]
  {
    var s := NewApp(7, Some(1));
    LapseLoses();
    Extend(s, Lapse(), 7);
    assert Run(s, Lapse()[..8]).jobs == map[1 := FirstJob()];
    Extend(s, Lapse(), 8);
  }

  /** The first job finishes late and is applied, the jobs of the newer builds being gone. */
  lemma LapseEnds()
    ensures Run(NewApp(7, Some(1)), Lapse()).app.deployed == Some(FirstJob().(progress := Succeeded))
  {
    var s := NewApp(7, Some(1));
    LapseDeploys();
    LapseRemoved();
    var last := Run(s, Lapse()[..9]);
    assert last.jobs[1].name == 1 && !Superseded(last.jobs, last.jobs[1]);
    Extend(s, Lapse(), 9);
    assert Lapse()[..10] == Lapse();
  }

  /** No job is removed while a failed reconcile of it awaits retry, and still the image goes back. */
  lemma {:induction false} RetryingIsNotEnough()
    ensures var s := NewApp(7, Some(1));
            && !Forward(Run(s, Lapse()[..4]).app, Run(s, Lapse()).app)
            && 3 !in Run(s, Lapse()[..6]).retry && 2 !in Run(s, Lapse()[..7]).retry
  {
    LapseDeploys();
    LapseRefused();
    LapseLoses();
    LapseEnds();
  }
}
