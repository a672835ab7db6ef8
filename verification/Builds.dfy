/** Applying finished builds to an App: console-api/controllers/build_controller.go. Job names stand for
    their place in the order of names, commits and git sources for themselves. */
module Builds {
  import opened Wrappers

  /** The git source a job recorded. */
  datatype Source = NotRecorded | Unfingerprintable | Fingerprint(of: int)

  datatype Progress = Waiting | Active | Succeeded | Failed

  /** A build job; `uid` is the App it was started for, none on jobs without the label. */
  datatype Job = Job(name: int, created: int, uid: Option<int>, source: Source, commit: int, deleting: bool,
                     progress: Progress)

  datatype Phase = PhasePending | PhaseBuilding | PhaseSucceeded | PhaseFailed | PhaseDiscarded

  /** The App's build status; old ones name no build or no creation time. */
  datatype BuildStatus = BuildStatus(phase: Phase, build: Option<int>, jobCreatedAt: Option<int>)

  datatype DeployEntry = DeployEntry(revision: int, commit: int, build: Option<int>)

  /** `deployed` records the job whose image the App runs. */
  datatype App = App(uid: int, git: Option<int>, image: Option<int>, deployed: Option<Job>, history: seq<DeployEntry>,
                     status: Option<BuildStatus>)

  /** Which calls of a reconcile succeed: the reads of the job and the App, the listing of the jobs, the
      write of the App, the second read of the App before its status is told, and the status write. */
  datatype Faults = Faults(job: bool, app: bool, list: bool, update: bool, again: bool, status: bool)

  function NoFaults(): Faults { Faults(true, true, true, true, true, true) }

  /** Newer means later created, and of jobs created together the one with the greater name. */
  predicate NewerThan(created: int, name: int, job: Job) {
    created > job.created || (created == job.created && name > job.name)
  }

  predicate OlderThanTracked(status: Option<BuildStatus>, job: Job) {
    && status.Some? && status.value.build.Some? && status.value.build.value != job.name
    && status.value.jobCreatedAt.Some? && NewerThan(status.value.jobCreatedAt.value, status.value.build.value, job)
  }

  predicate Supersedes(other: Job, job: Job) {
    other.name != job.name && other.uid == job.uid && NewerThan(other.created, other.name, job)
  }

  ghost predicate Superseded(jobs: map<int, Job>, job: Job) { exists n :: n in jobs && Supersedes(jobs[n], job) }

  predicate TrackedLive(jobs: map<int, Job>, status: Option<BuildStatus>) {
    status.Some? && status.value.build.Some? && status.value.build.value in jobs
  }

  predicate Finished(job: Job) { job.progress.Succeeded? || job.progress.Failed? }

  predicate Terminal(phase: Phase) { phase.PhaseSucceeded? || phase.PhaseFailed? || phase.PhaseDiscarded? }

  /** Whether the status already records this job's outcome. */
  predicate AlreadyApplied(status: Option<BuildStatus>, job: Job) {
    && status.Some?
    && (if status.value.build.None? then job.source.NotRecorded? else status.value.build.value == job.name)
    && Terminal(status.value.phase)
  }

  predicate StaleSource(job: Job, git: Option<int>) {
    job.source.NotRecorded? || job.source.Unfingerprintable? || git.None? || job.source.of != git.value
  }

  function StatusFor(job: Job, phase: Phase): BuildStatus { BuildStatus(phase, Some(job.name), Some(job.created)) }

  predicate SaysAlready(status: Option<BuildStatus>, job: Job, phase: Phase) {
    status.Some? && status.value.phase == phase && status.value.build == Some(job.name)
  }

  /** The history with this build's entry in front, once, and ten entries at most. */
  function Recorded(history: seq<DeployEntry>, build: int, commit: int): seq<DeployEntry> {
    if exists i :: 0 <= i < |history| && history[i].build == Some(build) then history
    else
      var entry := DeployEntry(if |history| > 0 then history[0].revision + 1 else 1, commit, Some(build));
      var longer := [entry] + history;
      if |longer| > 10 then longer[..10] else longer
  }

  /** What a reconcile of the job does to the App, and whether it has to be tried again. */
  ghost function Reconciled(app: App, jobs: map<int, Job>, name: int, w: Faults): (App, bool) {
    if !w.job then (app, true)
    else if name !in jobs || jobs[name].deleting then (app, false)
    else if !w.app then (app, true)
    else
      var job := jobs[name];
      if job.uid.Some? && job.uid.value != app.uid then (app, false)
      else if !w.list then (app, true)
      else if Superseded(jobs, job) then (app, false)
      else if !TrackedLive(jobs, app.status) && OlderThanTracked(app.status, job) then (app, false)
      else if StaleSource(job, app.git) then
        if app.git.Some? && Finished(job) && !AlreadyApplied(app.status, job) then Told(app, job, PhaseDiscarded, w)
        else (app, false)
      else match job.progress
        case Waiting => (app, false)
        case Active => Told(app, job, PhaseBuilding, w)
        case Succeeded =>
          if !w.update then (app, true)
          else
            var updated := app.(image := Some(job.commit), deployed := Some(job),
                                history := Recorded(app.history, job.name, job.commit));
            if w.status then (updated.(status := Some(StatusFor(job, PhaseSucceeded))), false) else (updated, true)
        case Failed =>
          if w.status then (app.(status := Some(StatusFor(job, PhaseFailed))), false) else (app, true)
  }

  function Told(app: App, job: Job, phase: Phase, w: Faults): (App, bool) {
    if !w.again then (app, true)
    else if job.uid.Some? && job.uid.value != app.uid then (app, false)
    else if SaysAlready(app.status, job, phase) then (app, false)
    else if w.status then (app.(status := Some(StatusFor(job, phase))), false)
    else (app, true)
  }

  lemma Inhabitant<T>(s: set<T>) returns (x: T)
    requires s != {}
    ensures x in s
  {
    x :| x in s;
  }

  class BuildReconciler {
    var app: App
    var jobs: map<int, Job>

    constructor (app: App, jobs: map<int, Job>)
      ensures this.app == app && this.jobs == jobs
    {
      this.app, this.jobs := app, jobs;
    }

    method SupersededByNewerBuild(job: Job, tracked: Option<int>) returns (superseded: bool, trackedLive: bool)
      ensures superseded == Superseded(jobs, job)
      ensures trackedLive == (tracked.Some? && tracked.value in jobs)
    {
      superseded, trackedLive := false, false;
      var left := jobs.Keys;
      while left != {}
        invariant left <= jobs.Keys
        invariant superseded <==> exists n :: n in jobs && n !in left && Supersedes(jobs[n], job)
        invariant trackedLive == (tracked.Some? && tracked.value in jobs && tracked.value !in left)
        decreases |left|
      {
        ghost var some := Inhabitant(left);
        var n :| n in left;
        left := left - {n};
        var other := jobs[n];
        if tracked == Some(n) { trackedLive := true; }
        if other.name == job.name || other.uid != job.uid { continue; }
        if other.created > job.created { superseded := true; }
        if other.created == job.created && other.name > job.name { superseded := true; }
      }
    }

    method UpdateBuildStatus(job: Job, phase: Phase, w: Faults) returns (err: bool)
      modifies this`app
      ensures (app, err) == Told(old(app), job, phase, w)
    {
      if !w.again { return true; }
      if job.uid.Some? && job.uid.value != app.uid { return false; }
      if SaysAlready(app.status, job, phase) { return false; }
      if !w.status { return true; }
      app := app.(status := Some(StatusFor(job, phase)));
      return false;
    }

    /** Records the build in the App's deploy history before the App is written. */
    method RecordDeployHistory(draft: App, build: int, commit: int) returns (out: App)
      ensures out == draft.(history := Recorded(draft.history, build, commit))
    {
      var history := draft.history;
      for i := 0 to |history|
        invariant forall j :: 0 <= j < i ==> history[j].build != Some(build)
      {
        if history[i].build == Some(build) { return draft; }
      }
      var next := 1;
      if |history| > 0 { next := history[0].revision + 1; }
      history := [DeployEntry(next, commit, Some(build))] + history;
      if |history| > 10 { history := history[..10]; }
      out := draft.(history := history);
    }

    /** Reconciles one job. An older build than one that is listed or remembered changes nothing. */
    method Reconcile(name: int, w: Faults) returns (err: bool)
      modifies this`app
      ensures (app, err) == Reconciled(old(app), jobs, name, w)
    {
      if !w.job { return true; }
      if name !in jobs { return false; }
      var job := jobs[name];
      if job.deleting { return false; }
      if !w.app { return true; }
      if job.uid.Some? && job.uid.value != app.uid { return false; }
      if !w.list { return true; }
      var tracked := if app.status.Some? then app.status.value.build else None;
      var superseded, trackedLive := SupersededByNewerBuild(job, tracked);
      if superseded { return false; }
      if !trackedLive && OlderThanTracked(app.status, job) { return false; }
      if StaleSource(job, app.git) {
        if app.git.Some? && Finished(job) && !AlreadyApplied(app.status, job) {
          err := UpdateBuildStatus(job, PhaseDiscarded, w);
          return;
        }
        return false;
      }
      if job.progress.Waiting? { return false; }
      if job.progress.Active? {
        err := UpdateBuildStatus(job, PhaseBuilding, w);
        return;
      }
      if job.progress.Succeeded? {
        var draft := app.(image := Some(job.commit), deployed := Some(job));
        draft := RecordDeployHistory(draft, job.name, job.commit);
        if !w.update { return true; }
        app := draft;
        if !w.status { return true; }
        app := app.(status := Some(StatusFor(job, PhaseSucceeded)));
        return false;
      }
      if !w.status { return true; }
      app := app.(status := Some(StatusFor(job, PhaseFailed)));
      return false;
    }
  }

  // ----- The deploy history -------------------------------------------------------------------------

  /** Newest first, each revision greater than the one after it, no build twice, ten at most. */
  predicate HistoryOk(history: seq<DeployEntry>) {
    && |history| <= 10
    && (forall i, j :: 0 <= i < j < |history| ==> history[i].revision > history[j].revision)
    && (forall i, j :: 0 <= i < j < |history| && history[i].build.Some? ==> history[i].build != history[j].build)
  }

  lemma {:induction false} RecordedOk(history: seq<DeployEntry>, build: int, commit: int)
    requires HistoryOk(history)
    ensures HistoryOk(Recorded(history, build, commit))
    ensures exists i :: 0 <= i < |Recorded(history, build, commit)| && Recorded(history, build, commit)[i].build == Some(build)
  {
    if !exists i :: 0 <= i < |history| && history[i].build == Some(build) {
      assert Recorded(history, build, commit)[0].build == Some(build);
    }
  }

  /** A replayed completion leaves the history alone, so it evicts no rollback target. */
  lemma {:induction false} RecordedOnce(history: seq<DeployEntry>, build: int, commit: int, again: int)
    ensures Recorded(Recorded(history, build, commit), build, again) == Recorded(history, build, commit)
  {
    if !exists i :: 0 <= i < |history| && history[i].build == Some(build) {
      assert Recorded(history, build, commit)[0].build == Some(build);
    }
  }

  /** The App's image changes only to that of a succeeded, current job of this App and its source. */
  lemma {:induction false} ImageOnlyFromCurrent(app: App, jobs: map<int, Job>, name: int, w: Faults)
    ensures var after := Reconciled(app, jobs, name, w).0;
            after.image != app.image || after.deployed != app.deployed ==>
              name in jobs
              && var job := jobs[name];
                 && !job.deleting && (job.uid.None? || job.uid.value == app.uid) && !Superseded(jobs, job)
                 && !StaleSource(job, app.git) && job.progress.Succeeded?
                 && after.image == Some(job.commit) && after.deployed == Some(job)
  {
  }

  /** A reconcile that ended in an error, whichever write failed, ends after its retry where it would
      have ended at once: nothing is applied twice. */
  lemma {:induction false} RetryCompletes(app: App, jobs: map<int, Job>, name: int, w: Faults)
    requires Reconciled(app, jobs, name, w).1
    ensures Reconciled(Reconciled(app, jobs, name, w).0, jobs, name, NoFaults())
            == Reconciled(app, jobs, name, NoFaults())
  {
    if w.job && w.app && w.list && w.update && Reconciled(app, jobs, name, w).0 != app {
      var job := jobs[name];
      RecordedOnce(app.history, job.name, job.commit, job.commit);
    }
  }
}
