/** One observation per workload and tick: console-api/controller/crashloop_escalation.go,
    observeWorkloads, containerIsClean, hasStatus and episodeKey. */
module Observe {
  import opened Wrappers

  /** Why a container waits; the empty text says nothing. */
  datatype Reason = CrashLoopBackOff | ImagePullBackOff | ErrImagePull | Other(text: string)

  datatype Status = Status(name: string, restarts: int, running: bool, ready: bool, exitCode: Option<int>,
                           waiting: Option<Reason>)

  datatype Kind = Init | Main

  /** A pod: its container names by its spec, and the statuses published for them. */
  datatype Pod = Pod(namespace: string, name: string, app: string, deleting: bool,
                     initSpec: seq<string>, mainSpec: seq<string>, initStatus: seq<Status>, mainStatus: seq<Status>)

  /** One container of one pod as a tick sees it: its status, or none published yet. */
  datatype Sight = Sight(key: string, kind: Kind, pod: Pod, status: Option<Status>)

  datatype Observation = Observation(rep: Sight, waiting: Reason, allClean: bool, restarts: int,
                                     counts: map<string, int>, failing: seq<Sight>, pulling: seq<Sight>)

  /** The observations by key and the keys in the order they were first met. */
  datatype Board = Board(byKey: map<string, Observation>, order: seq<string>)

  function EpisodeKey(pod: Pod, container: string, kind: Kind): string {
    pod.namespace + "/" + (if pod.app == "" then pod.name else pod.app) + "/"
    + (if kind.Init? then "init" else "app") + ":" + container
  }

  predicate HasStatus(statuses: seq<Status>, container: string) {
    exists i :: 0 <= i < |statuses| && statuses[i].name == container
  }

  /** An init container that succeeded is done; any other has to be running and ready. */
  predicate ContainerIsClean(cs: Status, kind: Kind) {
    (kind.Init? && cs.exitCode == Some(0)) || (cs.running && cs.ready)
  }

  function Unseen(e: Sight): Observation { Observation(e, Other(""), true, 0, map[], [], []) }

  predicate Failing(e: Sight) { e.status.Some? && e.status.value.waiting == Some(CrashLoopBackOff) }

  predicate Pulling(e: Sight) {
    e.status.Some? && (e.status.value.waiting == Some(ImagePullBackOff) || e.status.value.waiting == Some(ErrImagePull))
  }

  predicate CleanSight(e: Sight) { e.status.Some? && ContainerIsClean(e.status.value, e.kind) }

  /** Whether a waiting replica's reason replaces the one reported so far. */
  predicate Outranks(waiting: Reason, reason: Reason) {
    waiting == Other("") || (reason.CrashLoopBackOff? && !waiting.CrashLoopBackOff?)
  }

  function Absorbed(o: Observation, e: Sight): Observation {
    if e.status.None? then o.(allClean := false)
    else
      var cs := e.status.value;
      var seen := o.(rep := if o.rep.status.None? then e else o.rep, restarts := o.restarts + cs.restarts,
                     counts := o.counts[e.pod.name := cs.restarts],
                     allClean := o.allClean && ContainerIsClean(cs, e.kind));
      if cs.waiting.None? then seen
      else
        var sorted := seen.(failing := if Failing(e) then o.failing + [e] else o.failing,
                            pulling := if Pulling(e) then o.pulling + [e] else o.pulling);
        if Outranks(o.waiting, cs.waiting.value) then sorted.(waiting := cs.waiting.value, rep := e) else sorted
  }

  function Noted(b: Board, e: Sight): Board {
    Board(b.byKey[e.key := Absorbed(if e.key in b.byKey then b.byKey[e.key] else Unseen(e), e)],
          if e.key in b.byKey then b.order else b.order + [e.key])
  }

  function NotedAll(b: Board, es: seq<Sight>): Board {
    if es == [] then b else Noted(NotedAll(b, es[..|es| - 1]), es[|es| - 1])
  }

  function Missing(pod: Pod, spec: seq<string>, statuses: seq<Status>, kind: Kind): seq<Sight> {
    if spec == [] then []
    else
      var rest := Missing(pod, spec[..|spec| - 1], statuses, kind);
      var c := spec[|spec| - 1];
      if HasStatus(statuses, c) then rest else rest + [Sight(EpisodeKey(pod, c, kind), kind, pod, None)]
  }

  function Published(pod: Pod, statuses: seq<Status>, kind: Kind): seq<Sight> {
    seq(|statuses|, i requires 0 <= i < |statuses| => Sight(EpisodeKey(pod, statuses[i].name, kind), kind, pod, Some(statuses[i])))
  }

  /** What a pod shows; one on its way out shows nothing. */
  function Sights(pod: Pod): seq<Sight> {
    if pod.deleting then []
    else Missing(pod, pod.initSpec, pod.initStatus, Init) + Missing(pod, pod.mainSpec, pod.mainStatus, Main)
         + Published(pod, pod.initStatus, Init) + Published(pod, pod.mainStatus, Main)
  }

  function AllSights(pods: seq<Pod>): seq<Sight> {
    if pods == [] then [] else AllSights(pods[..|pods| - 1]) + Sights(pods[|pods| - 1])
  }

  /** All observations of the pods. */
  function Observed(pods: seq<Pod>): Board { NotedAll(Board(map[], []), AllSights(pods)) }

  lemma {:induction false} NotedConcat(b: Board, es: seq<Sight>, more: seq<Sight>)
    ensures NotedAll(b, es + more) == NotedAll(NotedAll(b, es), more)
  {
    if more == [] {
      assert es + more == es;
    } else {
      assert (es + more)[..|es + more| - 1] == es + more[..|more| - 1];
      NotedConcat(b, es, more[..|more| - 1]);
    }
  }

  /** Reduces every container of every pod to one observation per workload and container. */
  class Scan {
    var byKey: map<string, Observation>
    var order: seq<string>

    constructor ()
      ensures Contents() == Board(map[], [])
    {
      byKey, order := map[], [];
    }

    function Contents(): Board
      reads this
    {
      Board(byKey, order)
    }

    method Note(e: Sight)
      modifies this
      ensures Contents() == Noted(old(Contents()), e)
    {
      var obs := if e.key in byKey then byKey[e.key] else Unseen(e);
      if e.key !in byKey { order := order + [e.key]; }
      if e.status.None? {
        obs := obs.(allClean := false);
      } else {
        var cs := e.status.value;
        var before := obs.waiting;
        if obs.rep.status.None? { obs := obs.(rep := e); }
        obs := obs.(restarts := obs.restarts + cs.restarts, counts := obs.counts[e.pod.name := cs.restarts]);
        if !ContainerIsClean(cs, e.kind) { obs := obs.(allClean := false); }
        if cs.waiting.Some? {
          match cs.waiting.value {
            case CrashLoopBackOff => obs := obs.(failing := obs.failing + [e]);
            case ImagePullBackOff => obs := obs.(pulling := obs.pulling + [e]);
            case ErrImagePull => obs := obs.(pulling := obs.pulling + [e]);
            case Other(_) =>
          }
          if Outranks(before, cs.waiting.value) { obs := obs.(waiting := cs.waiting.value, rep := e); }
        }
      }
      byKey := byKey[e.key := obs];
    }

    method NoteMissing(pod: Pod, spec: seq<string>, statuses: seq<Status>, kind: Kind)
      modifies this
      ensures Contents() == NotedAll(old(Contents()), Missing(pod, spec, statuses, kind))
    {
      for i := 0 to |spec|
        invariant Contents() == NotedAll(old(Contents()), Missing(pod, spec[..i], statuses, kind))
      {
        assert spec[..i + 1][..i] == spec[..i];
        if HasStatus(statuses, spec[i]) { continue; }
        ghost var before := Missing(pod, spec[..i], statuses, kind);
        var e := Sight(EpisodeKey(pod, spec[i], kind), kind, pod, None);
        assert (before + [e])[..|before|] == before;
        Note(e);
      }
      assert spec[..|spec|] == spec;
    }

    method NotePublished(pod: Pod, statuses: seq<Status>, kind: Kind)
      modifies this
      ensures Contents() == NotedAll(old(Contents()), Published(pod, statuses, kind))
    {
      for i := 0 to |statuses|
        invariant Contents() == NotedAll(old(Contents()), Published(pod, statuses, kind)[..i])
      {
        assert Published(pod, statuses, kind)[..i + 1][..i] == Published(pod, statuses, kind)[..i];
        Note(Sight(EpisodeKey(pod, statuses[i].name, kind), kind, pod, Some(statuses[i])));
      }
      assert Published(pod, statuses, kind)[..|statuses|] == Published(pod, statuses, kind);
    }

    method NotePod(pod: Pod)
      modifies this
      ensures Contents() == NotedAll(old(Contents()), Sights(pod))
    {
      if pod.deleting { return; }
      ghost var start := Contents();
      NoteMissing(pod, pod.initSpec, pod.initStatus, Init);
      NoteMissing(pod, pod.mainSpec, pod.mainStatus, Main);
      NotePublished(pod, pod.initStatus, Init);
      NotePublished(pod, pod.mainStatus, Main);
      ghost var a, b := Missing(pod, pod.initSpec, pod.initStatus, Init), Missing(pod, pod.mainSpec, pod.mainStatus, Main);
      ghost var c, d := Published(pod, pod.initStatus, Init), Published(pod, pod.mainStatus, Main);
      NotedConcat(start, a, b);
      NotedConcat(start, a + b, c);
      NotedConcat(start, a + b + c, d);
    }
  }

  method ScanPods(pods: seq<Pod>) returns (scan: Scan)
    ensures fresh(scan) && scan.Contents() == Observed(pods)
  {
    scan := new Scan();
    for i := 0 to |pods|
      invariant scan.Contents() == Observed(pods[..i])
    {
      assert pods[..i + 1][..i] == pods[..i];
      NotedConcat(Board(map[], []), AllSights(pods[..i]), Sights(pods[i]));
      scan.NotePod(pods[i]);
    }
    assert pods[..|pods|] == pods;
  }

  method ObserveWorkloads(pods: seq<Pod>) returns (observations: seq<Observation>, keys: seq<string>)
    ensures keys == Observed(pods).order && |observations| == |keys|
    ensures forall i :: 0 <= i < |keys| ==>
              keys[i] in Observed(pods).byKey
              && observations[i] == Observed(pods).byKey[keys[i]]
  {
    var scan := ScanPods(pods);
    keys, observations := scan.order, [];
    OrderHeld(Board(map[], []), AllSights(pods));
    for i := 0 to |keys|
      invariant |observations| == i
      invariant forall j :: 0 <= j < i ==> observations[j] == scan.byKey[keys[j]]
    {
      observations := observations + [scan.byKey[keys[i]]];
    }
  }

  /** The order lists exactly the keys met, each once. */
  ghost predicate Orderly(b: Board) {
    && (forall k :: k in b.order <==> k in b.byKey)
    && (forall i, j :: 0 <= i < j < |b.order| ==> b.order[i] != b.order[j])
  }

  lemma {:induction false} OrderHeld(b: Board, es: seq<Sight>)
    requires Orderly(b)
    ensures Orderly(NotedAll(b, es))
  {
    if es != [] { OrderHeld(b, es[..|es| - 1]); }
  }
}
