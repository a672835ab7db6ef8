/** One workload's crash-loop alerts over a process's whole run: any number of ticks, any
    observations, and alert writes that may fail or be deferred. */
module CrashLoopRuns {
  import opened Wrappers
  import opened CrashLoop

  /** What a tick meets: no pod of the workload, a stopped app, whose episode is forgotten, or an
      observation, of an app that may have been stopped and started since. */
  datatype Look = Gone | Stopped | Seen(obs: Observation, restarted: bool)

  /** `stored` says whether the alert of this tick, if any, reached the store. */
  datatype Tick = Tick(at: int, look: Look, stored: bool)

  datatype Entry = Entry(at: int, kind: Kind, since: int)

  /** What is kept of the workload and its stored alerts, oldest first. */
  datatype World = World(watch: Watch, log: seq<Entry>)

  function Fresh(): World { World(Watch(None, None), []) }

  function Forgotten(w: Watch): Watch { w.(episode := None) }

  function Answered(watch: Watch, log: seq<Entry>, obs: Observation, tick: Tick): World {
    var r := Observe(watch, obs, tick.at);
    var after := Watch(watch.mark, r.episode);
    if r.alert.Some? && tick.stored
    then World(Committed(after, r.alert.value, tick.at), log + [Entry(tick.at, r.alert.value.kind, r.alert.value.since)])
    else World(after, log)
  }

  function Step(w: World, tick: Tick): World {
    var watch := Swept(w.watch, tick.at);
    match tick.look
    case Gone => World(watch, w.log)
    case Stopped => World(Forgotten(watch), w.log)
    case Seen(obs, restarted) => Answered(if restarted then Forgotten(watch) else watch, w.log, obs, tick)
  }

  function Run(ticks: seq<Tick>): World {
    if ticks == [] then Fresh() else Step(Run(ticks[..|ticks| - 1]), ticks[|ticks| - 1])
  }

  predicate Ordered(ticks: seq<Tick>) { forall i, j :: 0 <= i < j < |ticks| ==> ticks[i].at < ticks[j].at }

  /** An alert the workload's hourly mark is set for. */
  predicate Stamps(k: Kind) { !k.Resolved? }

  predicate Loops(k: Kind) { k.Warning? || k.Persisting? }

  predicate Critical(k: Kind) { k.Persisting? || k.ReadOnly? }

  /** The mark covers a stored alert: it is at least as late, or the alert is a day old. */
  predicate Marked(mark: Option<int>, now: int, e: Entry) {
    Stamps(e.kind) ==> (mark.Some? && e.at <= mark.value) || e.at < now - 86_400
  }

  /** The open episode knows of a critical alert stored for it. */
  predicate Known(episode: Option<Episode>, e: Entry) {
    Critical(e.kind) && episode.Some? && episode.value.firstSeen == Some(e.since) ==>
      && episode.value.escalatedAt.Some? && episode.value.lastAlerted.Some? && e.at <= episode.value.lastAlerted.value
      && (e.kind.ReadOnly? ==> episode.value.readOnlySeen)
  }

  predicate EntryOk(w: Watch, now: int, e: Entry) {
    e.since <= e.at <= now && Marked(w.mark, now, e) && Known(w.episode, e)
  }

  /** The open episode began in the past, and its being critical was told. */
  ghost predicate EpisodeOk(episode: Option<Episode>, now: int, log: seq<Entry>) {
    episode.Some? ==>
      && episode.value.firstSeen.Some? && episode.value.firstSeen.value <= now
      && (episode.value.escalatedAt.Some? ==> Told(log, episode.value.firstSeen.value))
      && (episode.value.readOnlySeen ==> episode.value.escalatedAt.Some?)
  }

  ghost predicate Told(log: seq<Entry>, since: int) {
    exists i :: 0 <= i < |log| && Critical(log[i].kind) && log[i].since == since
  }

  /** A mark is the time of a stored alert. */
  ghost predicate MarkOk(mark: Option<int>, now: int, log: seq<Entry>) {
    mark.Some? ==> mark.value <= now && exists i :: 0 <= i < |log| && Stamps(log[i].kind) && log[i].at == mark.value
  }

  /** A later alert respects an earlier one. */
  predicate Spaced(early: Entry, late: Entry) {
    && (Loops(late.kind) && Stamps(early.kind) ==> late.at - early.at >= 3_600)
    && (late.kind.Persisting? && Critical(early.kind) && early.since == late.since ==> late.at - early.at >= 86_400)
    && !(late.kind.ReadOnly? && early.kind.ReadOnly? && early.since == late.since)
  }

  ghost predicate LogOk(log: seq<Entry>) {
    && (forall i, j :: 0 <= i < j < |log| ==> Spaced(log[i], log[j]))
    && (forall j :: 0 <= j < |log| && log[j].kind.Resolved? ==> Told(log[..j], log[j].since))
  }

  ghost predicate Good(w: World, now: int) {
    && (forall i :: 0 <= i < |w.log| ==> EntryOk(w.watch, now, w.log[i]))
    && EpisodeOk(w.watch.episode, now, w.log) && MarkOk(w.watch.mark, now, w.log) && LogOk(w.log)
  }

  /** The episode is the one before, or one that begins now. */
  predicate Continues(before: Option<Episode>, after: Option<Episode>, now: int) {
    after.Some? ==>
      if before.Some?
      then after.value.firstSeen == before.value.firstSeen && after.value.escalatedAt == before.value.escalatedAt
           && after.value.lastAlerted == before.value.lastAlerted && after.value.readOnlySeen == before.value.readOnlySeen
      else after.value.firstSeen == Some(now) && after.value.escalatedAt.None? && !after.value.readOnlySeen
  }

  predicate Since(before: Option<Episode>, since: int, now: int) {
    if before.Some? then before.value.firstSeen == Some(since) else since == now
  }

  /** What an alert may say and leave behind, given what is kept of the workload. */
  predicate Justified(w: Watch, a: Alert, now: int) {
    var wasCritical := w.episode.Some? && w.episode.value.escalatedAt.Some?;
    && Since(w.episode, a.since, now)
    && (Loops(a.kind) ==> Past(w.mark, now, 3_600))
    && (a.kind.Persisting? && wasCritical ==> Past(w.episode.value.lastAlerted, now, 86_400))
    && (a.kind.ReadOnly? && w.episode.Some? ==> !w.episode.value.readOnlySeen)
    && (a.kind.Resolved? ==> wasCritical && a.next.None?)
    && (Stamps(a.kind) ==>
          a.next.Some? && a.next.value.firstSeen == Some(a.since) && a.next.value.lastAlerted == Some(now)
          && (a.next.value.escalatedAt.Some? <==> Critical(a.kind) || wasCritical)
          && (a.next.value.readOnlySeen <==> a.kind.ReadOnly? || (w.episode.Some? && w.episode.value.readOnlySeen)))
  }

  lemma {:induction false} ObserveJustified(w: Watch, obs: Observation, now: int)
    requires w.episode.Some? ==> w.episode.value.firstSeen.Some?
    ensures var r := Observe(w, obs, now);
            Continues(w.episode, r.episode, now) && (r.alert.Some? ==> Justified(w, r.alert.value, now))
  {
  }

  lemma QuietOk(w: World, episode: Option<Episode>, now: int)
    requires Good(w, now) && Continues(w.watch.episode, episode, now)
    requires forall i :: 0 <= i < |w.log| ==> w.log[i].at < now
    ensures Good(World(Watch(w.watch.mark, episode), w.log), now)
  {
  }

  lemma ToldLater(log: seq<Entry>, e: Entry, since: int)
    requires Told(log, since)
    ensures Told(log + [e], since)
  {
    var i :| 0 <= i < |log| && Critical(log[i].kind) && log[i].since == since;
    assert (log + [e])[i] == log[i];
  }

  lemma StoredLogOk(w: World, a: Alert, now: int)
    requires Good(w, now) && Justified(w.watch, a, now)
    requires forall i :: 0 <= i < |w.log| ==> w.log[i].at < now
    ensures LogOk(w.log + [Entry(now, a.kind, a.since)])
  {
    var log := w.log + [Entry(now, a.kind, a.since)];
    forall i, j | 0 <= i < j < |log| ensures Spaced(log[i], log[j]) {
      if j == |w.log| { assert EntryOk(w.watch, now, w.log[i]); }
    }
    forall j | 0 <= j < |log| && log[j].kind.Resolved? ensures Told(log[..j], log[j].since) {
      assert log[..j] == w.log[..j];
      if j == |w.log| { assert w.log[..j] == w.log; }
    }
  }

  lemma StoredOk(w: World, a: Alert, now: int)
    requires Good(w, now) && Justified(w.watch, a, now)
    requires forall i :: 0 <= i < |w.log| ==> w.log[i].at < now
    ensures Good(World(Committed(w.watch, a, now), w.log + [Entry(now, a.kind, a.since)]), now)
  {
    var e := Entry(now, a.kind, a.since);
    var log := w.log + [e];
    var watch := Committed(w.watch, a, now);
    StoredLogOk(w, a, now);
    assert log[|w.log|] == e;
    if Stamps(a.kind) {
      if Critical(a.kind) { assert Told(log, a.since); }
      else if watch.episode.value.escalatedAt.Some? { ToldLater(w.log, e, a.since); }
    } else if watch.mark.Some? {
      var i :| 0 <= i < |w.log| && Stamps(w.log[i].kind) && w.log[i].at == watch.mark.value;
      assert log[i] == w.log[i];
    }
    forall i | 0 <= i < |log| ensures EntryOk(watch, now, log[i]) {
      if i < |w.log| { assert EntryOk(w.watch, now, w.log[i]); }
    }
  }

  lemma StepOk(w: World, now: int, tick: Tick)
    requires Good(w, now) && now < tick.at
    ensures Good(Step(w, tick), tick.at)
  {
    if tick.look.Seen? {
      var swept := Swept(w.watch, tick.at);
      var watch := if tick.look.restarted then Forgotten(swept) else swept;
      var r := Observe(watch, tick.look.obs, tick.at);
      ObserveJustified(watch, tick.look.obs, tick.at);
      if r.alert.Some? && tick.stored {
        AlertStoredOk(watch, w.log, r, tick);
      } else {
        QuietOk(World(watch, w.log), r.episode, tick.at);
      }
    }
  }

  lemma AlertStoredOk(watch: Watch, log: seq<Entry>, r: Response, tick: Tick)
    requires Good(World(watch, log), tick.at) && r.alert.Some? && Justified(watch, r.alert.value, tick.at)
    requires forall i :: 0 <= i < |log| ==> log[i].at < tick.at
    ensures var a := r.alert.value;
            Good(World(Committed(Watch(watch.mark, r.episode), a, tick.at), log + [Entry(tick.at, a.kind, a.since)]), tick.at)
  {
    StoredOk(World(watch, log), r.alert.value, tick.at);
  }

  lemma {:induction false} RunOk(ticks: seq<Tick>, now: int)
    requires Ordered(ticks) && forall i :: 0 <= i < |ticks| ==> ticks[i].at <= now
    ensures Good(Run(ticks), now)
  {
    if ticks != [] {
      var n := |ticks| - 1;
      var last := ticks[n];
      RunOk(ticks[..n], last.at - 1);
      StepOk(Run(ticks[..n]), last.at - 1, last);
    }
  }

  /** Over a whole run, a stored crash-loop alert comes at least an hour after any other stored alert
      of the workload but an all-clear. */
  lemma {:induction false} HourApart(ticks: seq<Tick>, i: nat, j: nat)
    requires Ordered(ticks) && i < j < |Run(ticks).log|
    requires Loops(Run(ticks).log[j].kind) && Stamps(Run(ticks).log[i].kind)
    ensures Run(ticks).log[j].at - Run(ticks).log[i].at >= 3_600
  {
    RunOk(ticks, if ticks == [] then 0 else ticks[|ticks| - 1].at);
    assert Spaced(Run(ticks).log[i], Run(ticks).log[j]);
  }

  /** A stored critical crash-loop alert comes at least a day after any other critical alert of the
      same episode. */
  lemma {:induction false} DayApart(ticks: seq<Tick>, i: nat, j: nat)
    requires Ordered(ticks) && i < j < |Run(ticks).log|
    requires Run(ticks).log[j].kind.Persisting? && Critical(Run(ticks).log[i].kind)
    requires Run(ticks).log[i].since == Run(ticks).log[j].since
    ensures Run(ticks).log[j].at - Run(ticks).log[i].at >= 86_400
  {
    RunOk(ticks, if ticks == [] then 0 else ticks[|ticks| - 1].at);
    assert Spaced(Run(ticks).log[i], Run(ticks).log[j]);
  }

  /** The read-only diagnosis is stored once per episode. */
  lemma {:induction false} DiagnosisOnce(ticks: seq<Tick>, i: nat, j: nat)
    requires Ordered(ticks) && i < j < |Run(ticks).log|
    requires Run(ticks).log[i].kind.ReadOnly? && Run(ticks).log[j].kind.ReadOnly?
    ensures Run(ticks).log[i].since != Run(ticks).log[j].since
  {
    RunOk(ticks, if ticks == [] then 0 else ticks[|ticks| - 1].at);
    assert Spaced(Run(ticks).log[i], Run(ticks).log[j]);
  }

  /** Two critical alerts of one episode are less than a day apart only if the later one is the
      episode's one read-only diagnosis. */
  lemma {:induction false} CriticalApart(ticks: seq<Tick>, i: nat, j: nat)
    requires Ordered(ticks) && i < j < |Run(ticks).log|
    requires Critical(Run(ticks).log[i].kind) && Critical(Run(ticks).log[j].kind)
    requires Run(ticks).log[i].since == Run(ticks).log[j].since
    ensures var log := Run(ticks).log;
            || log[j].at - log[i].at >= 86_400
            || (log[j].kind.ReadOnly?
                && forall k :: 0 <= k < |log| && k != j && log[k].kind.ReadOnly? ==> log[k].since != log[j].since)
  {
    var log := Run(ticks).log;
    if log[j].kind.Persisting? {
      DayApart(ticks, i, j);
    } else {
      forall k | 0 <= k < |log| && k != j && log[k].kind.ReadOnly? ensures log[k].since != log[j].since {
        if k < j { DiagnosisOnce(ticks, k, j); } else { DiagnosisOnce(ticks, j, k); }
      }
    }
  }

  /** Every all-clear answers a critical alert stored before it for the same episode. */
  lemma {:induction false} AllClearWasTold(ticks: seq<Tick>, j: nat)
    requires Ordered(ticks) && j < |Run(ticks).log| && Run(ticks).log[j].kind.Resolved?
    ensures Told(Run(ticks).log[..j], Run(ticks).log[j].since)
  {
    RunOk(ticks, if ticks == [] then 0 else ticks[|ticks| - 1].at);
  }

  /** Whatever suppresses further alerts stands for an alert that was stored: the hourly mark, and an
      episode that counts as critical. */
  lemma {:induction false} SuppressionWasStored(ticks: seq<Tick>)
    requires Ordered(ticks)
    ensures var w := Run(ticks);
            && (w.watch.mark.Some? ==>
                  exists i :: 0 <= i < |w.log| && Stamps(w.log[i].kind) && w.log[i].at == w.watch.mark.value)
            && (w.watch.episode.Some? && w.watch.episode.value.escalatedAt.Some? ==>
                  w.watch.episode.value.firstSeen.Some? && Told(w.log, w.watch.episode.value.firstSeen.value))
  {
    RunOk(ticks, if ticks == [] then 0 else ticks[|ticks| - 1].at);
  }

  // ----- Escalation ---------------------------------------------------------------------------------

  /** The loop is seen failing, for a reason other than memory, and the alert write succeeds. */
  predicate FailingTick(tick: Tick) {
    && tick.stored && tick.look.Seen? && !tick.look.restarted
    && tick.look.obs.waiting.CrashLoopBackOff? && tick.look.obs.failing && !tick.look.obs.oomOnly
  }

  /** An episode that began at `first`, kept alive by the last tick, that is critical or still has
      less than seven hours and no recent warning past six. */
  predicate Escalating(w: Watch, first: int, now: int) {
    && w.episode.Some? && w.episode.value.firstSeen == Some(first) && w.episode.value.lastSeen == Some(now)
    && (w.episode.value.escalatedAt.Some?
        || (now < first + 25_200 && (w.mark.Some? ==> w.mark.value < first + 21_600)))
  }

  lemma FirstFailing(w: World, now: int, tick: Tick)
    requires Good(w, now) && now < tick.at && FailingTick(tick) && Swept(w.watch, tick.at).episode.None?
    ensures Escalating(Step(w, tick).watch, tick.at, tick.at)
  {
  }

  lemma NextFailing(w: World, first: int, now: int, tick: Tick)
    requires Escalating(w.watch, first, now) && now < tick.at <= now + 86_400 && FailingTick(tick)
    ensures Escalating(Step(w, tick).watch, first, tick.at)
  {
    assert Swept(w.watch, tick.at).episode == w.watch.episode;
  }

  /** The loop began at tick `k` and is seen failing on every tick since, at most a day apart. */
  ghost predicate FailingFrom(ticks: seq<Tick>, k: nat) {
    && Ordered(ticks) && k < |ticks| && Swept(Run(ticks[..k]).watch, ticks[k].at).episode.None?
    && (forall i :: k <= i < |ticks| ==> FailingTick(ticks[i]))
    && (forall i :: k < i < |ticks| ==> ticks[i].at <= ticks[i - 1].at + 86_400)
  }

  lemma FailingBefore(ticks: seq<Tick>, k: nat)
    requires FailingFrom(ticks, k) && k < |ticks| - 1
    ensures FailingFrom(ticks[..|ticks| - 1], k)
  {
    assert ticks[..|ticks| - 1][..k] == ticks[..k];
  }

  lemma {:induction false} KeepsEscalating(ticks: seq<Tick>, k: nat)
    requires FailingFrom(ticks, k)
    ensures Escalating(Run(ticks).watch, ticks[k].at, ticks[|ticks| - 1].at)
    decreases |ticks|
  {
    var n := |ticks| - 1;
    if n == k {
      RunOk(ticks[..n], ticks[n].at - 1);
      FirstFailing(Run(ticks[..n]), ticks[n].at - 1, ticks[n]);
    } else {
      FailingBefore(ticks, k);
      KeepsEscalating(ticks[..n], k);
      NextFailing(Run(ticks[..n]), ticks[k].at, ticks[n - 1].at, ticks[n]);
    }
  }

  /** A loop that begins at tick `k` and is seen failing on every tick from then on, with successful
      writes and ticks at most a day apart, has had a critical alert stored by the first tick seven
      hours after it began. */
  lemma {:induction false} EscalatesInTime(ticks: seq<Tick>, k: nat)
    requires FailingFrom(ticks, k) && ticks[|ticks| - 1].at >= ticks[k].at + 25_200
    ensures Told(Run(ticks).log, ticks[k].at)
  {
    KeepsEscalating(ticks, k);
    RunOk(ticks, ticks[|ticks| - 1].at);
  }

  /** A loop seen failing, for a reason other than memory, in an episode that has turned six hours old
      without having been told as critical. */
  predicate Crossing(w: Watch, obs: Observation, now: int) {
    && w.episode.Some? && Old(w.episode.value, now) && w.episode.value.escalatedAt.None? && !w.episode.value.readOnlySeen
    && obs.waiting.CrashLoopBackOff? && obs.failing && !obs.oomOnly
  }

  /** Exactly when the crossing raises an alert: when the hourly mark has run out, or with a read-only
      diagnosis; and then the alert is critical. */
  lemma {:induction false} CrossingAlerts(w: Watch, obs: Observation, now: int)
    requires Crossing(w, obs, now)
    ensures var alert := Observe(w, obs, now).alert;
            && (alert.Some? <==> obs.readOnly || Past(w.mark, now, 3_600))
            && (alert.Some? ==> alert.value.kind == if obs.readOnly then ReadOnly else Persisting)
  {
  }

  /** Every stored alert of the workload but an all-clear is at least an hour old. */
  predicate Quiet(log: seq<Entry>, now: int) {
    forall i :: 0 <= i < |log| && Stamps(log[i].kind) ==> now - log[i].at >= 3_600
  }

  lemma MarkIsLast(w: World, now: int, later: int)
    requires Good(w, now) && now < later
    ensures Past(Swept(w.watch, later).mark, later, 3_600) <==> Quiet(w.log, later)
  {
    if Past(Swept(w.watch, later).mark, later, 3_600) {
      forall i | 0 <= i < |w.log| && Stamps(w.log[i].kind) ensures later - w.log[i].at >= 3_600 {
        assert EntryOk(w.watch, now, w.log[i]);
      }
    }
  }

  /** The last tick of a run. */
  lemma LastStep(ticks: seq<Tick>, tick: Tick)
    requires Ordered(ticks + [tick])
    ensures Run(ticks + [tick]) == Step(Run(ticks), tick) && Good(Run(ticks), tick.at - 1)
  {
    assert (ticks + [tick])[..|ticks|] == ticks && (ticks + [tick])[|ticks|] == tick;
    assert Ordered(ticks) && forall i :: 0 <= i < |ticks| ==> ticks[i].at < tick.at by {
      assert forall i :: 0 <= i < |ticks| ==> (ticks + [tick])[i] == ticks[i];
    }
    RunOk(ticks, tick.at - 1);
  }

  /** In any run, the tick on which the crossing is seen and its alert can be written stores a critical
      alert exactly when the last stored alert of the workload is an hour old, or when it diagnoses a
      read-only volume; otherwise it stores nothing. */
  lemma {:induction false} CrossingStored(ticks: seq<Tick>, tick: Tick)
    requires Ordered(ticks + [tick]) && FailingTick(tick)
    requires var episode := Swept(Run(ticks).watch, tick.at).episode;
             episode.Some? && Old(episode.value, tick.at) && episode.value.escalatedAt.None?
    ensures var before, obs := Run(ticks), tick.look.obs;
            Run(ticks + [tick]).log
            == if obs.readOnly || Quiet(before.log, tick.at)
               then before.log + [Entry(tick.at, if obs.readOnly then ReadOnly else Persisting,
                                        Swept(before.watch, tick.at).episode.value.firstSeen.value)]
               else before.log
  {
    var w := Run(ticks);
    LastStep(ticks, tick);
    var watch := Swept(w.watch, tick.at);
    MarkIsLast(w, tick.at - 1, tick.at);
    CrossingAlerts(watch, tick.look.obs, tick.at);
    var r := Observe(watch, tick.look.obs, tick.at);
    ObserveJustified(watch, tick.look.obs, tick.at);
  }

  /** The tick sees the episode's workload fail, for a reason other than memory, with a read-only log
      that the episode has not been diagnosed by. */
  predicate Diagnoses(look: Look, e: Episode) {
    && look.Seen? && !look.restarted && !look.obs.waiting.NotWaiting? && look.obs.failing && !look.obs.oomOnly
    && look.obs.readOnly && !e.readOnlySeen
  }

  /** The tick stored a critical alert of the episode that began at `since`. */
  ghost predicate StoresCritical(before: seq<Entry>, after: seq<Entry>, since: int) {
    |after| == |before| + 1 && Critical(after[|before|].kind) && after[|before|].since == since
  }

  /** What the open episode knows of the earlier alert rules out all but the diagnosis. */
  lemma SoonAlerts(w: Watch, obs: Observation, now: int, e: Entry)
    requires Known(w.episode, e) && Critical(e.kind) && now - e.at < 86_400
    requires w.episode.Some? && w.episode.value.firstSeen == Some(e.since)
    ensures var alert := Observe(w, obs, now).alert;
            && (alert.Some? && Critical(alert.value.kind) <==> Diagnoses(Seen(obs, false), w.episode.value))
            && (alert.Some? ==> alert.value.since == e.since)
  {
    ObserveJustified(w, obs, now);
  }

  /** Exactly when a critical alert follows another of its episode within a day: when the tick brings
      the read-only diagnosis that the episode has not had, whatever the workload is waiting for. */
  lemma {:induction false} CriticalSoon(ticks: seq<Tick>, tick: Tick, i: nat)
    requires Ordered(ticks + [tick]) && tick.stored && i < |Run(ticks).log|
    requires Critical(Run(ticks).log[i].kind) && tick.at - Run(ticks).log[i].at < 86_400
    requires var episode := Swept(Run(ticks).watch, tick.at).episode;
             episode.Some? && episode.value.firstSeen == Some(Run(ticks).log[i].since)
    ensures StoresCritical(Run(ticks).log, Run(ticks + [tick]).log, Run(ticks).log[i].since)
            <==> Diagnoses(tick.look, Swept(Run(ticks).watch, tick.at).episode.value)
  {
    var w := Run(ticks);
    LastStep(ticks, tick);
    var watch := Swept(w.watch, tick.at);
    assert EntryOk(w.watch, tick.at - 1, w.log[i]);
    if tick.look.Seen? && !tick.look.restarted {
      SoonAlerts(watch, tick.look.obs, tick.at, w.log[i]);
    } else if tick.look.Seen? {
      ObserveJustified(Forgotten(watch), tick.look.obs, tick.at);
    }
  }

  function Failing(readOnly: bool): Look { Seen(Observation(CrashLoopBackOff, true, false, readOnly, false, 1, map[]), false) }

  function At(at: int, readOnly: bool): Tick { Tick(at, Failing(readOnly), true) }

  lemma RunThree(a: Tick, b: Tick, c: Tick)
    ensures Run([a, b]) == Step(Step(Fresh(), a), b) && Run([a, b, c]) == Step(Step(Step(Fresh(), a), b), c)
  {
    assert [a, b, c][..2] == [a, b] && [a, b][..1] == [a] && [a][..0] == [];
    assert Run([a]) == Step(Fresh(), a);
  }

  /** An episode that opened at 0 and was last alerted and seen at `told`. */
  function Open(told: int, escalatedAt: Option<int>): Episode {
    Episode(Some(0), Some(told), escalatedAt, None, Some(told), 1, false, map[])
  }

  lemma FirstWarning()
    ensures Step(Fresh(), At(0, false)) == World(Watch(Some(0), Some(Open(0, None))), [Entry(0, Warning, 0)])
  {
  }

  /** The hour is not waived when an episode turns six hours old: with a warning a minute before, the
      critical alert is held back although it is due. */
  lemma {:induction false} EscalationWaits()
    ensures var w := Run([At(0, false), At(21_540, false), At(21_600, false)]);
            && w.log == [Entry(0, Warning, 0), Entry(21_540, Warning, 0)]
            && w.watch.episode.Some? && Old(w.watch.episode.value, 21_600) && Due(w.watch.episode.value, 21_600)
  {
    RunThree(At(0, false), At(21_540, false), At(21_600, false));
    FirstWarning();
  }

  /** The read-only diagnosis is critical and waits for neither the hour nor the day. */
  lemma {:induction false} DiagnosisDoesNotWait()
    ensures Run([At(0, false), At(21_600, false), At(21_660, true)]).log
            == [Entry(0, Warning, 0), Entry(21_600, Persisting, 0), Entry(21_660, ReadOnly, 0)]
  {
    RunThree(At(0, false), At(21_600, false), At(21_660, true));
    FirstWarning();
  }

  // ----- The tracker meets it -----------------------------------------------------------------------

  /** One tick of one workload: the sweep, and then what the tick meets. */
  method ServeTick(tracker: Tracker, key: string, tick: Tick, log: seq<Entry>) returns (after: seq<Entry>)
    modifies tracker
    ensures World(tracker.WatchOf(key), after) == Step(World(old(tracker.WatchOf(key)), log), tick)
  {
    after := log;
    tracker.PruneAlertState(tick.at);
    ghost var swept := tracker.WatchOf(key);
    if tick.look.Gone? { return; }
    if tick.look.Stopped? || tick.look.restarted { tracker.episodes := tracker.episodes - {key}; }
    if tick.look.Stopped? { return; }
    assert tracker.WatchOf(key) == if tick.look.restarted then Forgotten(swept) else swept;
    var alert := tracker.CheckWorkload(key, tick.look.obs, tick.at);
    if alert.Some? && tick.stored {
      tracker.Commit(key, alert.value, tick.at);
      after := log + [Entry(tick.at, alert.value.kind, alert.value.since)];
    }
  }

  /** The tracker goes through any ticks as the runs do. */
  method Serve(key: string, ticks: seq<Tick>) returns (tracker: Tracker, log: seq<Entry>)
    ensures World(tracker.WatchOf(key), log) == Run(ticks)
  {
    tracker := new Tracker();
    log := [];
    for n := 0 to |ticks|
      invariant fresh(tracker) && World(tracker.WatchOf(key), log) == Run(ticks[..n])
    {
      assert ticks[..n + 1][..n] == ticks[..n];
      log := ServeTick(tracker, key, ticks[n], log);
    }
    assert ticks[..|ticks|] == ticks;
  }
}
