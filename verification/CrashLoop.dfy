/** How one workload's crash loop is reported over time: console-api/controller/crashloop_escalation.go
    and the crash-loop part of checkPodProblems in console-api/controller/resource_controller.go.
    Times are seconds. */
module CrashLoop {
  import opened Wrappers

  /** The most serious reason any replica is waiting for. */
  datatype Waiting = NotWaiting | CrashLoopBackOff | OtherReason

  /** One workload on one tick. `readOnly` says that a log of a failing replica was read and says its
      file system went read-only. */
  datatype Observation = Observation(waiting: Waiting, failing: bool, oomOnly: bool, readOnly: bool, allClean: bool,
                                     restarts: int, counts: map<string, int>)

  /** One unresolved crash loop; an unset time is the source's zero time. */
  datatype Episode = Episode(firstSeen: Option<int>, lastAlerted: Option<int>, escalatedAt: Option<int>,
                             readySince: Option<int>, lastSeen: Option<int>, restarts: int, readOnlySeen: bool,
                             counts: map<string, int>)

  datatype Kind = Warning | Persisting | ReadOnly | Resolved

  /** An alert and what may be done only once it is stored: the episode it leaves, and, unless it is
      an all-clear, the workload's hourly mark. */
  datatype Alert = Alert(kind: Kind, since: int, next: Option<Episode>)

  /** What is kept of a workload: its last crash-loop or read-only alert, and its open episode. */
  datatype Watch = Watch(mark: Option<int>, episode: Option<Episode>)

  datatype Response = Response(episode: Option<Episode>, alert: Option<Alert>)

  function NoEpisode(): Episode { Episode(None, None, None, None, None, 0, false, map[]) }

  function Get(e: Option<Episode>): Episode { if e.Some? then e.value else NoEpisode() }

  function Or(t: Option<int>, now: int): int { if t.Some? then t.value else now }

  /** Whether a time is unset or at least `age` ago. */
  predicate Past(t: Option<int>, now: int, age: int) { t.None? || now - t.value >= age }

  /** Six hours after it began an episode is critical. */
  predicate Old(e: Episode, now: int) { e.firstSeen.Some? && now - e.firstSeen.value >= 21_600 }

  predicate Escalated(e: Episode, now: int) { e.escalatedAt.Some? || Old(e, now) }

  /** Whether the episode has something to say: at first, when it becomes critical, and then hourly
      as a warning and daily when critical. */
  predicate Due(e: Episode, now: int) {
    || e.lastAlerted.None?
    || (Escalated(e, now) && e.escalatedAt.None?)
    || now - e.lastAlerted.value >= (if e.escalatedAt.Some? then 86_400 else 3_600)
  }

  /** No pod seen before has restarted again. */
  predicate StillClean(e: Episode, counts: map<string, int>) {
    forall pod :: pod in counts && pod in e.counts ==> counts[pod] <= e.counts[pod]
  }

  function Unsettled(e: Episode, now: int): Episode { e.(lastSeen := Some(now), readySince := None) }

  function Held(e: Option<Episode>, now: int): Option<Episode> {
    if e.None? then None else Some(Unsettled(e.value, now))
  }

  function Touched(e: Option<Episode>, obs: Observation, now: int): Episode {
    var ep := Unsettled(Get(e), now).(restarts := obs.restarts, counts := obs.counts);
    if e.None? then ep.(firstSeen := Some(now)) else ep
  }

  /** The read-only diagnosis, once for an episode and critical at once. */
  function ReadOnlyAlert(e: Option<Episode>, obs: Observation, now: int): Option<Alert> {
    var ep := Get(e);
    if ep.readOnlySeen || !obs.readOnly then None
    else
      var since := Or(ep.firstSeen, now);
      Some(Alert(ReadOnly, since,
                 Some(ep.(firstSeen := Some(since), lastSeen := Some(now), lastAlerted := Some(now),
                          readOnlySeen := true, escalatedAt := Some(Or(ep.escalatedAt, now))))))
  }

  /** A crash-looping workload outside the hourly floor. */
  function Crashed(e: Option<Episode>, obs: Observation, now: int): Response {
    var ep := Unsettled(Get(e), now).(firstSeen := Some(Or(Get(e).firstSeen, now)),
                                      restarts := obs.restarts, counts := obs.counts);
    var diagnosis := ReadOnlyAlert(e, obs, now);
    if diagnosis.Some? then Response(e, diagnosis)
    else if !Due(ep, now) then Response(Some(ep), None)
    else
      var next := ep.(lastAlerted := Some(now));
      if Escalated(ep, now)
      then Response(e, Some(Alert(Persisting, ep.firstSeen.value, Some(next.(escalatedAt := Some(Or(ep.escalatedAt, now)))))))
      else Response(e, Some(Alert(Warning, ep.firstSeen.value, Some(next))))
  }

  /** A workload that waits for nothing: ten minutes of clean running end its episode, and only one
      that was critical is given an all-clear. */
  function Recovering(e: Option<Episode>, obs: Observation, now: int): Response {
    if e.None? then Response(None, None)
    else
      var ep := e.value;
      if !(obs.allClean && StillClean(ep, obs.counts))
      then Response(Some(Unsettled(ep, now).(restarts := obs.restarts, counts := obs.counts)), None)
      else
        var clean := ep.(readySince := Some(Or(ep.readySince, now)), lastSeen := Some(now), restarts := obs.restarts,
                         counts := obs.counts);
        if now - clean.readySince.value < 600 then Response(Some(clean), None)
        else if clean.escalatedAt.None? then Response(None, None)
        else Response(Some(clean), Some(Alert(Resolved, Or(clean.firstSeen, now), None)))
  }

  /** One observation of a workload: its episode and perhaps an alert. */
  function Observe(w: Watch, obs: Observation, now: int): Response {
    if obs.waiting.NotWaiting? then Recovering(w.episode, obs, now)
    else
      var e := if obs.waiting.CrashLoopBackOff? then w.episode else Held(w.episode, now);
      if !obs.failing then Response(e, None)
      else if obs.oomOnly then Response(Held(e, now), None)
      else if !Past(w.mark, now, 3_600) then
        var diagnosis := ReadOnlyAlert(e, obs, now);
        if diagnosis.Some? then Response(e, diagnosis) else Response(Some(Touched(e, obs, now)), None)
      else Crashed(e, obs, now)
  }

  /** What a stored alert commits. */
  function Committed(w: Watch, a: Alert, now: int): Watch {
    Watch(if a.kind.Resolved? then w.mark else Some(now), a.next)
  }

  predicate Unseen(e: Episode, cutoff: int) { e.lastSeen.None? || e.lastSeen.value < cutoff }

  /** Marks and episodes not touched for a day are dropped. */
  function Swept(w: Watch, now: int): Watch {
    Watch(if w.mark.Some? && w.mark.value < now - 86_400 then None else w.mark,
          if w.episode.Some? && Unseen(w.episode.value, now - 86_400) then None else w.episode)
  }

  // ----- The controller's state ---------------------------------------------------------------------

  function Put<V>(m: map<string, V>, key: string, v: Option<V>): map<string, V> {
    if v.Some? then m[key := v.value] else m - {key}
  }

  function At<V>(m: map<string, V>, key: string): Option<V> { if key in m then Some(m[key]) else None }

  class Tracker {
    var alerted: map<string, int>
    var episodes: map<string, Episode>

    constructor ()
      ensures alerted == map[] && episodes == map[]
    {
      alerted, episodes := map[], map[];
    }

    function WatchOf(key: string): Watch
      reads this
    {
      Watch(At(alerted, key), At(episodes, key))
    }

    method HoldEpisode(key: string, now: int)
      modifies this`episodes
      ensures episodes == Put(old(episodes), key, Held(At(old(episodes), key), now))
    {
      if key !in episodes {
        assert Put(episodes, key, None) == episodes;
        return;
      }
      episodes := episodes[key := Unsettled(episodes[key], now)];
    }

    method TouchEpisode(key: string, obs: Observation, now: int)
      modifies this`episodes
      ensures episodes == Put(old(episodes), key, Some(Touched(At(old(episodes), key), obs, now)))
    {
      var ep := if key in episodes then episodes[key] else NoEpisode();
      if key !in episodes { ep := ep.(firstSeen := Some(now)); }
      ep := ep.(lastSeen := Some(now), readySince := None, restarts := obs.restarts, counts := obs.counts);
      episodes := episodes[key := ep];
    }

    method IsStillClean(e: Episode, counts: map<string, int>) returns (clean: bool)
      ensures clean == StillClean(e, counts)
    {
      var left := counts.Keys;
      while left != {}
        invariant left <= counts.Keys
        invariant forall pod :: pod in counts && pod !in left && pod in e.counts ==> counts[pod] <= e.counts[pod]
        decreases |left|
      {
        var pod :| pod in left;
        if pod in e.counts && counts[pod] > e.counts[pod] { return false; }
        left := left - {pod};
      }
      clean := true;
    }

    method ObserveRecovery(key: string, obs: Observation, now: int) returns (alert: Option<Alert>)
      modifies this`episodes
      ensures Response(At(episodes, key), alert) == Recovering(At(old(episodes), key), obs, now)
      ensures episodes == Put(old(episodes), key, At(episodes, key))
    {
      if key !in episodes {
        assert Put(episodes, key, None) == episodes;
        return None;
      }
      var ep := episodes[key];
      var clean := IsStillClean(ep, obs.counts);
      if !(obs.allClean && clean) {
        ep := Unsettled(ep, now);
        ep := ep.(restarts := obs.restarts, counts := obs.counts);
        episodes := episodes[key := ep];
        return None;
      }
      if ep.readySince.None? { ep := ep.(readySince := Some(now)); }
      ep := ep.(lastSeen := Some(now), restarts := obs.restarts, counts := obs.counts);
      ghost var original := episodes;
      episodes := episodes[key := ep];
      if now - ep.readySince.value < 600 { return None; }
      if ep.escalatedAt.None? {
        episodes := episodes - {key};
        assert episodes == original - {key};
        return None;
      }
      return Some(Alert(Resolved, Or(ep.firstSeen, now), None));
    }

    method CrashLoopAlert(key: string, obs: Observation, now: int) returns (alert: Option<Alert>)
      modifies this`episodes
      ensures Response(At(episodes, key), alert) == Crashed(At(old(episodes), key), obs, now)
      ensures episodes == Put(old(episodes), key, At(episodes, key))
    {
      var ep := if key in episodes then episodes[key] else NoEpisode();
      if ep.firstSeen.None? { ep := ep.(firstSeen := Some(now)); }
      ep := ep.(lastSeen := Some(now), readySince := None, restarts := obs.restarts, counts := obs.counts);
      assert key !in episodes ==> Put(episodes, key, None) == episodes;
      alert := ReadOnlyAlert(At(episodes, key), obs, now);
      if alert.Some? { return; }
      if !Due(ep, now) {
        episodes := episodes[key := ep];
        return None;
      }
      var next := ep.(lastAlerted := Some(now));
      if Escalated(ep, now) && next.escalatedAt.None? { next := next.(escalatedAt := Some(now)); }
      return Some(Alert(if Escalated(ep, now) then Persisting else Warning, ep.firstSeen.value, Some(next)));
    }

    /** One workload of a tick: what its episode becomes, and the alert staged for it. Other
        workloads' episodes and all marks stay as they are. */
    method CheckWorkload(key: string, obs: Observation, now: int) returns (alert: Option<Alert>)
      modifies this`episodes
      ensures Response(At(episodes, key), alert) == Observe(old(WatchOf(key)), obs, now)
      ensures episodes == Put(old(episodes), key, At(episodes, key))
    {
      if obs.waiting.NotWaiting? {
        alert := ObserveRecovery(key, obs, now);
        return;
      }
      assert episodes == Put(episodes, key, At(episodes, key));
      if !obs.waiting.CrashLoopBackOff? { HoldEpisode(key, now); }
      label Held:
      alert := None;
      if obs.failing {
        if obs.oomOnly {
          HoldEpisode(key, now);
          return;
        }
        if key in alerted && now - alerted[key] < 3_600 {
          alert := ReadOnlyAlert(At(episodes, key), obs, now);
          if alert.Some? { return; }
          TouchEpisode(key, obs, now);
          return;
        }
        alert := CrashLoopAlert(key, obs, now);
      }
    }

    /** Applies what a stored alert carries. */
    method Commit(key: string, alert: Alert, now: int)
      modifies this
      ensures WatchOf(key) == Committed(old(WatchOf(key)), alert, now)
      ensures alerted == Put(old(alerted), key, At(alerted, key)) && episodes == Put(old(episodes), key, At(episodes, key))
    {
      assert key !in alerted ==> Put(alerted, key, None) == alerted;
      if !alert.kind.Resolved? { alerted := alerted[key := now]; }
      if alert.next.Some? { episodes := episodes[key := alert.next.value]; } else { episodes := episodes - {key}; }
    }

    /** Drops what has not been touched for a day. */
    method PruneAlertState(now: int)
      modifies this
      ensures forall key :: WatchOf(key) == Swept(old(WatchOf(key)), now)
    {
      var cutoff := now - 86_400;
      var left := alerted.Keys;
      while left != {}
        invariant left <= alerted.Keys <= old(alerted).Keys && episodes == old(episodes)
        invariant forall k :: k in alerted ==> alerted[k] == old(alerted)[k]
        invariant forall k :: k in old(alerted) ==> (k in alerted <==> k in left || old(alerted)[k] >= cutoff)
        decreases |left|
      {
        var k :| k in left;
        if alerted[k] < cutoff { alerted := alerted - {k}; }
        left := left - {k};
      }
      left := episodes.Keys;
      label Marks:
      while left != {}
        invariant left <= episodes.Keys <= old(episodes).Keys && alerted == old@Marks(alerted)
        invariant forall k :: k in episodes ==> episodes[k] == old(episodes)[k]
        invariant forall k :: k in old(episodes) ==>
                    (k in episodes <==> k in left || !Unseen(old(episodes)[k], cutoff))
        decreases |left|
      {
        var k :| k in left;
        if Unseen(episodes[k], cutoff) { episodes := episodes - {k}; }
        left := left - {k};
      }
    }
  }
}
