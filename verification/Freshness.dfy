/** How a replica knows that its caches are current: authz/freshness.go. Each watched type has a log of
    its writes, of which the replica's cache shows a prefix. Times are nanoseconds of one clock. */
module Freshness {
  import opened Wrappers

  /** A committed write of a type, whether it is one of the type's canary, and the probe notes the
      canary carries from then on, by replica. */
  datatype Write = Write(at: int, canary: bool, notes: map<int, int>)

  datatype World = World(now: int, logs: seq<seq<Write>>, shown: seq<nat>)

  function NotesOf(log: seq<Write>): map<int, int> { if log == [] then map[] else log[|log| - 1].notes }

  /** The notes without those that other replicas have not renewed since the cutoff. */
  function WithoutStale(notes: map<int, int>, me: int, cutoff: int): map<int, int> {
    map r | r in notes && (r == me || notes[r] >= cutoff) :: notes[r]
  }

  /** The version of the canary: the last write of it. */
  function VersionOf(log: seq<Write>): nat {
    if log == [] then 0 else if log[|log| - 1].canary then |log| else VersionOf(log[..|log| - 1])
  }

  predicate LogOk(log: seq<Write>, shown: nat, now: int) {
    && shown <= |log| && CanaryOnly(log) && InOrder(log)
    && forall k :: 0 <= k < |log| ==> log[k].at <= now
  }

  /** Writes are logged in the order in which they were committed. */
  predicate InOrder(log: seq<Write>) { forall j, k :: 0 <= j <= k < |log| ==> log[j].at <= log[k].at }

  /** Writes to other objects leave the canary's notes as they are. */
  predicate CanaryOnly(log: seq<Write>) {
    forall k :: 0 <= k < |log| && !log[k].canary ==> log[k].notes == NotesOf(log[..k])
  }

  predicate WorldOk(w: World) {
    |w.logs| == |w.shown| && forall i :: 0 <= i < |w.logs| ==> LogOk(w.logs[i], w.shown[i], w.now)
  }

  /** A log and its cache over time: writes are appended, and the cache only moves on. */
  predicate LogGrows(log: seq<Write>, shown: nat, log': seq<Write>, shown': nat, since: int) {
    log <= log' && shown <= shown' && forall k :: |log| <= k < |log'| ==> log'[k].at >= since
  }

  predicate Evolves(w: World, w': World) {
    && w.now <= w'.now && |w'.logs| == |w.logs| && |w'.shown| == |w.shown| && WorldOk(w')
    && forall i :: 0 <= i < |w.logs| && i < |w.shown| ==> LogGrows(w.logs[i], w.shown[i], w'.logs[i], w'.shown[i], w.now)
  }

  lemma EvolvesOn(w: World, w': World, w'': World)
    requires WorldOk(w) && Evolves(w, w') && Evolves(w', w'')
    ensures Evolves(w, w'')
  {
    forall i | 0 <= i < |w.logs| ensures LogGrows(w.logs[i], w.shown[i], w''.logs[i], w''.shown[i], w.now) {
      assert LogGrows(w.logs[i], w.shown[i], w'.logs[i], w'.shown[i], w.now);
      assert LogGrows(w'.logs[i], w'.shown[i], w''.logs[i], w''.shown[i], w'.now);
    }
  }

  /** A replica's own notes never exceed a bound, nor the time at which they were written: they are the
      times at which its probes began. */
  predicate NoteBelow(w: Write, me: int, bound: int) { me in w.notes ==> w.notes[me] <= bound && w.notes[me] <= w.at }

  predicate NotesBelow(w: World, me: int, bound: int) {
    forall i, k :: 0 <= i < |w.logs| && 0 <= k < |w.logs[i]| ==> NoteBelow(w.logs[i][k], me, bound)
  }

  /** A canary still at the version it was read at still has the notes that were read. */
  lemma {:induction false} SameVersionNotes(log: seq<Write>, log': seq<Write>)
    requires log <= log' && CanaryOnly(log') && 0 < VersionOf(log) == VersionOf(log')
    ensures NotesOf(log') == NotesOf(log)
    decreases |log'|
  {
    if |log| < |log'| {
      var n := |log'| - 1;
      VersionWithin(log);
      assert !log'[n].canary;
      assert forall k :: 0 <= k < n ==> log'[..n][..k] == log'[..k];
      SameVersionNotes(log, log'[..n]);
    } else {
      assert log == log';
    }
  }

  lemma {:induction false} VersionWithin(log: seq<Write>)
    ensures VersionOf(log) <= |log|
  {
    if log != [] && !log[|log| - 1].canary { VersionWithin(log[..|log| - 1]); }
  }

  /** What others do between two of our calls: time passes; another replica writes a canary, keeping
      our note or pruning it; something else of the type is written; the cache shows more. */
  datatype Event =
    | Wait(duration: nat)
    | Sibling(kind: nat, replica: int, value: int, pruned: set<int>)
    | Other(kind: nat)
    | Show(kind: nat, upTo: nat)

  /** The notes that `before` becomes when `me` stamps `value`: other replicas' notes are kept, unless
      they are older than the cutoff. */
  predicate Stamped(before: map<int, int>, after: map<int, int>, me: int, value: int, cutoff: int) {
    && me in after && after[me] == value
    && (forall r :: r in before && r != me && before[r] >= cutoff ==> r in after)
    && (forall r :: r in after && r != me ==> r in before && after[r] == before[r])
  }

  /** The last write is a canary's, and stamps what the canary was before it. */
  predicate EndsStamped(log: seq<Write>, me: int, value: int, cutoff: int) {
    log != [] && log[|log| - 1].canary && Stamped(NotesOf(log[..|log| - 1]), NotesOf(log), me, value, cutoff)
  }

  lemma StampEnds(read: seq<Write>, log: seq<Write>, notes: map<int, int>, me: int, value: int, cutoff: int, later: int)
    requires log != [] && read <= log[..|log| - 1] && CanaryOnly(log) && cutoff <= later
    requires 0 < VersionOf(read) == VersionOf(log[..|log| - 1]) && notes == NotesOf(read)
    requires log[|log| - 1].canary && log[|log| - 1].notes == WithoutStale(notes[me := value], me, cutoff)
    ensures EndsStamped(log, me, value, later)
  {
    var before := log[..|log| - 1];
    assert forall k :: 0 <= k < |before| ==> before[..k] == log[..k];
    SameVersionNotes(read, before);
  }

  /** What comes before one of our calls; the call may fail, or our context may end. */
  datatype Turn = Turn(events: seq<Event>, fault: bool, done: bool)

  /** The API server, and this replica's caches of it. `troubles` counts failed calls and ended contexts,
      `refusals` the writes refused for a conflict. */
  class Cluster {
    const me: int
    var now: int
    var logs: seq<seq<Write>>
    var shown: seq<nat>
    var script: seq<Turn>
    ghost var troubles: nat
    ghost var refusals: nat

    constructor (me: int, now: int, logs: seq<seq<Write>>, shown: seq<nat>, script: seq<Turn>)
      ensures this.me == me && Here() == World(now, logs, shown)
    {
      this.me, this.now, this.logs, this.shown, this.script := me, now, logs, shown, script;
      troubles, refusals := 0, 0;
    }

    function Here(): World
      reads this
    {
      World(now, logs, shown)
    }

    method Append(kind: nat, w: Write, ghost bound: int)
      requires WorldOk(Here()) && NotesBelow(Here(), me, bound) && kind < |logs| && w.at == now && NoteBelow(w, me, bound)
      requires w.canary || w.notes == NotesOf(logs[kind])
      modifies this`logs
      ensures Evolves(old(Here()), Here()) && NotesBelow(Here(), me, bound)
      ensures logs == old(logs)[kind := old(logs)[kind] + [w]]
    {
      var log := logs[kind] + [w];
      assert forall k :: 0 <= k <= |logs[kind]| ==> log[..k] == logs[kind][..k];
      assert logs[kind][..|logs[kind]|] == logs[kind];
      logs := logs[kind := log];
    }

    method Serve(e: Event, ghost bound: int)
      requires WorldOk(Here()) && NotesBelow(Here(), me, bound)
      modifies this`now, this`logs, this`shown
      ensures Evolves(old(Here()), Here()) && NotesBelow(Here(), me, bound)
      ensures e.Wait? ==> now == old(now) + e.duration
    {
      assert forall i :: 0 <= i < |logs| && logs[i] != [] ==> NoteBelow(logs[i][|logs[i]| - 1], me, bound);
      match e {
        case Wait(d) => now := now + d;
        case Sibling(kind, replica, value, pruned) =>
          if kind < |logs| && replica != me {
            Append(kind, Write(now, true, (NotesOf(logs[kind]) - pruned)[replica := value]), bound);
          }
        case Other(kind) => if kind < |logs| { Append(kind, Write(now, false, NotesOf(logs[kind])), bound); }
        case Show(kind, upTo) =>
          if kind < |logs| && shown[kind] <= upTo <= |logs[kind]| { shown := shown[kind := upTo]; }
      }
    }

    /** Lets at least `least` pass and the others act. */
    method Pause(least: nat, ghost bound: int) returns (fault: bool, done: bool)
      requires WorldOk(Here()) && NotesBelow(Here(), me, bound)
      modifies this
      ensures Evolves(old(Here()), Here()) && NotesBelow(Here(), me, bound) && now >= old(now) + least
      ensures troubles == old(troubles) + (if fault || done then 1 else 0) && refusals == old(refusals)
    {
      fault, done := false, false;
      ghost var start := Here();
      Serve(Wait(least), bound);
      ghost var waited := now;
      if script != [] {
        var turn := script[0];
        script, fault, done := script[1..], turn.fault, turn.done;
        if fault || done { troubles := troubles + 1; }
        for i := 0 to |turn.events|
          invariant Evolves(start, Here()) && NotesBelow(Here(), me, bound) && now >= waited
          invariant troubles == old(troubles) + (if fault || done then 1 else 0) && refusals == old(refusals)
        {
          ghost var before := Here();
          Serve(turn.events[i], bound);
          EvolvesOn(start, before, Here());
        }
      }
    }

    /** The canary as the API server has it, and its version; a missing one cannot be read. */
    method ReadCanary(kind: nat, ghost bound: int) returns (r: Option<(nat, map<int, int>)>)
      requires WorldOk(Here()) && NotesBelow(Here(), me, bound) && kind < |logs|
      modifies this
      ensures Evolves(old(Here()), Here()) && NotesBelow(Here(), me, bound)
      ensures r.Some? && me in r.value.1 ==> r.value.1[me] <= bound
      ensures r.Some? ==> 0 < r.value.0 == VersionOf(logs[kind]) && r.value.1 == NotesOf(logs[kind])
      ensures r.None? ==> troubles > old(troubles)
      ensures troubles >= old(troubles) && refusals == old(refusals)
    {
      var fault, done := Pause(0, bound);
      if fault { return None; }
      if VersionOf(logs[kind]) == 0 { troubles := troubles + 1; return None; }
      assert logs[kind] != [] ==> NoteBelow(logs[kind][|logs[kind]| - 1], me, bound);
      return Some((VersionOf(logs[kind]), NotesOf(logs[kind])));
    }

    /** Writes the canary if nothing of it has changed since it was read. */
    method UpdateCanary(kind: nat, version: nat, notes: map<int, int>, ghost bound: int) returns (ok: bool, conflict: bool)
      requires WorldOk(Here()) && NotesBelow(Here(), me, bound) && kind < |logs|
      requires me in notes ==> notes[me] <= bound && notes[me] <= now
      modifies this
      ensures Evolves(old(Here()), Here()) && NotesBelow(Here(), me, bound)
      ensures ok ==>
                var log := logs[kind];
                log != [] && log[|log| - 1] == Write(now, true, notes) && VersionOf(log[..|log| - 1]) == version
      ensures ok ==> old(logs[kind]) <= logs[kind][..|logs[kind]| - 1]
      ensures refusals == old(refusals) + (if conflict then 1 else 0) && !(ok && conflict)
      ensures troubles >= old(troubles) && (!ok && !conflict ==> troubles > old(troubles))
    {
      var fault, done := Pause(0, bound);
      ghost var before := Here();
      if fault { return false, false; }
      if VersionOf(logs[kind]) != version { refusals := refusals + 1; return false, true; }
      Append(kind, Write(now, true, notes), bound);
      assert logs[kind][..|logs[kind]| - 1] == before.logs[kind];
      EvolvesOn(old(Here()), before, Here());
      return true, false;
    }

    /** The note of this replica on the canary its cache shows. */
    method CachedNote(kind: nat, ghost bound: int) returns (note: Option<int>)
      requires WorldOk(Here()) && NotesBelow(Here(), me, bound) && kind < |logs|
      modifies this
      ensures Evolves(old(Here()), Here()) && NotesBelow(Here(), me, bound)
      ensures note.Some? ==> Shows(Here(), me, kind, note.value)
      ensures troubles == old(troubles) ==> forall v :: Shows(Here(), me, kind, v) ==> note == Some(v)
      ensures troubles >= old(troubles) && refusals == old(refusals)
    {
      var fault, done := Pause(0, bound);
      var notes := NotesOf(logs[kind][..shown[kind]]);
      if fault || me !in notes { return None; }
      return Some(notes[me]);
    }
  }

  // ----- The clock ----------------------------------------------------------------------------------

  /** The cache of this type has every write committed before `began`. */
  predicate Current(w: World, kind: nat, began: int)
    requires kind < |w.logs| && kind < |w.shown|
  {
    forall k :: 0 <= k < |w.logs[kind]| && w.logs[kind][k].at < began ==> k < w.shown[kind]
  }

  predicate Reflects(w: World, began: int) {
    forall i :: 0 <= i < |w.logs| && i < |w.shown| ==> Current(w, i, began)
  }

  /** The cache of this type has all that was committed before the start and, if `isNew`, all that was
      logged before it. */
  predicate Past(start: World, w: World, kind: nat, isNew: bool)
    requires kind < |w.logs| && kind < |w.shown| && kind < |start.logs|
  {
    Current(w, kind, start.now) && (isNew ==> |start.logs[kind]| <= w.shown[kind])
  }

  /** What a probe has been shown so far. */
  predicate PastStart(start: World, w: World, observed: seq<bool>, isNew: bool) {
    |observed| == |w.shown| == |start.logs| == |w.logs|
    && forall i :: 0 <= i < |observed| && observed[i] ==> Past(start, w, i, isNew)
  }

  /** The cache of this type shows `value` as the note of `me`. */
  predicate Shows(w: World, me: int, kind: nat, value: int) {
    kind < |w.logs| && kind < |w.shown| && w.shown[kind] <= |w.logs[kind]|
    && Carries(w.logs[kind][..w.shown[kind]], me, value)
  }

  /** This much of a log ends with the value as the note of `me`. */
  predicate Carries(log: seq<Write>, me: int, value: int) { me in NotesOf(log) && NotesOf(log)[me] == value }

  /** The cache has yet to pass a point at which the log carried the value, with writes to follow. */
  ghost predicate Repeats(start: World, me: int, kind: nat, value: int)
    requires WorldOk(start) && kind < |start.logs|
  {
    exists j :: start.shown[kind] <= j < |start.logs[kind]| && Carries(start.logs[kind][..j], me, value)
  }

  /** No cache has, so that only the probe's own notes can answer it. */
  ghost predicate Unrepeated(start: World, me: int, value: int)
    requires WorldOk(start)
  {
    forall i :: 0 <= i < |start.logs| ==> !Repeats(start, me, i, value)
  }

  /** A value later than that of every probe before is repeated nowhere. */
  lemma {:induction false} LaterIsUnrepeated(start: World, me: int, value: int, bound: int)
    requires WorldOk(start) && NotesBelow(start, me, bound) && bound < value
    ensures Unrepeated(start, me, value)
  {
    forall i, j | 0 <= i < |start.logs| && 0 <= j < |start.logs[i]| ensures !Carries(start.logs[i][..j], me, value) {
      if j > 0 { assert NoteBelow(start.logs[i][j - 1], me, bound); }
    }
  }

  /** A note is no later than its write, so a cache that shows the value of a probe shows every write
      committed before that time. */
  lemma {:induction false} SeenIsCurrent(w: World, me: int, kind: nat, value: int, bound: int)
    requires WorldOk(w) && NotesBelow(w, me, bound) && Shows(w, me, kind, value)
    ensures Current(w, kind, value)
  {
    var log, n := w.logs[kind], w.shown[kind];
    assert LogOk(log, n, w.now) && NoteBelow(log[n - 1], me, bound);
    forall k | n <= k < |log| ensures log[k].at >= value { assert log[n - 1].at <= log[k].at; }
  }

  /** A cache that shows the value of a probe it cannot confuse with an earlier one shows all that was
      there at the start. */
  lemma {:induction false} SeenIsPast(start: World, w: World, me: int, value: int, kind: nat)
    requires WorldOk(start) && Evolves(start, w) && kind < |start.logs|
    requires !Repeats(start, me, kind, value) && Shows(w, me, kind, value)
    ensures |start.logs[kind]| <= w.shown[kind]
  {
    assert LogGrows(start.logs[kind], start.shown[kind], w.logs[kind], w.shown[kind], start.now);
    assert forall j :: 0 <= j <= |start.logs[kind]| ==> w.logs[kind][..j] == start.logs[kind][..j];
  }

  /** From here the cache can come to show the value before it shows all that is there now. */
  ghost predicate CanDeceive(start: World, me: int, kind: nat, value: int)
    requires WorldOk(start) && kind < |start.logs|
  {
    exists w :: Evolves(start, w) && Shows(w, me, kind, value) && w.shown[kind] < |start.logs[kind]|
  }

  /** Exactly when a cache could show the value before all that is logged now: when it has yet to pass a
      point at which the value was already there, with writes after it. Of those, the writes from before
      the time the value stands for are none (`SeenIsCurrent`). */
  lemma {:induction false} RepeatedValueDeceives(start: World, me: int, kind: nat, value: int)
    requires WorldOk(start) && kind < |start.logs|
    ensures CanDeceive(start, me, kind, value) <==> Repeats(start, me, kind, value)
  {
    if Repeats(start, me, kind, value) {
      var j :| start.shown[kind] <= j < |start.logs[kind]| && Carries(start.logs[kind][..j], me, value);
      var w := start.(shown := start.shown[kind := j]);
      assert forall i :: 0 <= i < |w.logs| ==> LogOk(start.logs[i], start.shown[i], start.now);
      assert WorldOk(w) && Evolves(start, w) && Shows(w, me, kind, value);
    }
    if CanDeceive(start, me, kind, value) {
      var w :| Evolves(start, w) && Shows(w, me, kind, value) && w.shown[kind] < |start.logs[kind]|;
      if !Repeats(start, me, kind, value) { SeenIsPast(start, w, me, value, kind); }
    }
  }

  /** The caches have all that was logged at the start. */
  predicate LoggedIsShown(start: World, w: World) {
    |w.shown| == |start.logs| && forall i :: 0 <= i < |w.shown| ==> |start.logs[i]| <= w.shown[i]
  }

  lemma AllPast(start: World, w: World, observed: seq<bool>, isNew: bool)
    requires PastStart(start, w, observed, isNew) && forall i :: 0 <= i < |observed| ==> observed[i]
    ensures Reflects(w, start.now) && (isNew ==> LoggedIsShown(start, w))
  {
    forall i | 0 <= i < |observed| ensures Current(w, i, start.now) && (isNew ==> |start.logs[i]| <= w.shown[i]) {
      assert observed[i] && Past(start, w, i, isNew);
    }
  }

  lemma PastStays(start: World, w: World, w': World, observed: seq<bool>, isNew: bool)
    requires PastStart(start, w, observed, isNew) && WorldOk(w) && Evolves(w, w') && start.now <= w.now
    ensures PastStart(start, w', observed, isNew)
  {
    forall i | 0 <= i < |observed| && observed[i] ensures Past(start, w', i, isNew) { CurrentOn(w, w', i, start.now); }
  }

  lemma CurrentOn(w: World, w': World, kind: nat, began: int)
    requires WorldOk(w) && Evolves(w, w') && began <= w.now && kind < |w.logs| && Current(w, kind, began)
    ensures kind < |w'.logs| && kind < |w'.shown| && Current(w', kind, began) && w.shown[kind] <= w'.shown[kind]
  {
    assert LogGrows(w.logs[kind], w.shown[kind], w'.logs[kind], w'.shown[kind], w.now);
  }

  /** Caches that reflect all writes before a time go on doing so. */
  lemma ReflectsOn(w: World, w': World, began: int)
    requires WorldOk(w) && Evolves(w, w') && began <= w.now && Reflects(w, began)
    ensures Reflects(w', began)
  {
    forall i | 0 <= i < |w'.logs| && i < |w'.shown| ensures Current(w', i, began) { CurrentOn(w, w', i, began); }
  }

  /** One canary of a look: observed if it was before, or if the cache showed the value at some moment
      `met` of the look, and only then; a read that fails sees nothing. */
  predicate Looked(from: World, met: World, upTo: World, me: int, kind: nat, value: int, before: bool, observed: bool,
                   calm: bool) {
    && Evolves(from, met) && Evolves(met, upTo) && (before ==> observed)
    && (!before && observed ==> Shows(met, me, kind, value))
    && (Shows(met, me, kind, value) && calm ==> observed)
  }

  predicate LookedAll(from: World, met: seq<World>, upTo: World, me: int, value: int, before: seq<bool>,
                      observed: seq<bool>, calm: bool) {
    |met| <= |before| && |met| <= |observed|
    && forall i :: 0 <= i < |met| ==> Looked(from, met[i], upTo, me, i, value, before[i], observed[i], calm)
  }

  lemma LookedAllOn(from: World, met: seq<World>, upTo: World, later: World, me: int, value: int, before: seq<bool>,
                    observed: seq<bool>, calm: bool, calmer: bool)
    requires LookedAll(from, met, upTo, me, value, before, observed, calm) && (calmer ==> calm) && Evolves(upTo, later)
    ensures LookedAll(from, met, later, me, value, before, observed, calmer)
  {
    forall i | 0 <= i < |met| ensures Looked(from, met[i], later, me, i, value, before[i], observed[i], calmer) {
      EvolvesOn(met[i], upTo, later);
    }
  }

  class Freshness {
    const cluster: Cluster
    const staleBound: int
    var lastFresh: Option<int>
    ghost var began: int
    ghost var lastValue: int
    ghost var successes: nat

    constructor (cluster: Cluster, staleBound: int, ghost before: int)
      requires WorldOk(cluster.Here()) && NotesBelow(cluster.Here(), cluster.me, before) && before <= cluster.now
      ensures this.cluster == cluster && this.staleBound == staleBound && Valid()
    {
      this.cluster, this.staleBound, lastFresh, began, lastValue := cluster, staleBound, None, before, before;
      successes := 0;
    }

    /** The last successful probe began at `began`, and the caches still reflect all writes before that. */
    ghost predicate Valid()
      reads this, cluster
    {
      && WorldOk(cluster.Here()) && NotesBelow(cluster.Here(), cluster.me, lastValue) && began <= lastValue <= cluster.now
      && (lastFresh.Some? ==> began <= lastFresh.value <= cluster.now && Reflects(cluster.Here(), began))
    }

    /** The others act between probes. */
    method Idle(least: nat)
      requires Valid()
      modifies cluster
      ensures Valid() && cluster.now >= old(cluster.now) + least
    {
      ghost var start := cluster.Here();
      var fault, done := cluster.Pause(least, lastValue);
      if lastFresh.Some? { ReflectsOn(start, cluster.Here(), began); }
    }

    /** One attempt: reads the canary, stamps it and writes it unless it has changed meanwhile. */
    method TryCanary(kind: nat, value: int, ghost bound: int) returns (written: bool, conflict: bool)
      requires WorldOk(cluster.Here()) && NotesBelow(cluster.Here(), cluster.me, bound) && kind < |cluster.logs|
      requires value <= bound && value <= cluster.now
      modifies cluster
      ensures Evolves(old(cluster.Here()), cluster.Here()) && NotesBelow(cluster.Here(), cluster.me, bound)
      ensures written ==> EndsStamped(cluster.logs[kind], cluster.me, value, cluster.now - 3_600_000_000_000)
      ensures cluster.troubles >= old(cluster.troubles) && !(written && conflict)
      ensures !written && !conflict ==> cluster.troubles > old(cluster.troubles)
      ensures cluster.refusals == old(cluster.refusals) + if conflict then 1 else 0
    {
      var read := cluster.ReadCanary(kind, bound);
      if read.None? { return false, false; }
      var (version, notes) := read.value;
      ghost var between := cluster.Here();
      var cutoff := cluster.now - 3_600_000_000_000;
      var stamped := WithoutStale(notes[cluster.me := value], cluster.me, cutoff);
      written, conflict := cluster.UpdateCanary(kind, version, stamped, bound);
      EvolvesOn(old(cluster.Here()), between, cluster.Here());
      if written {
        StampEnds(between.logs[kind], cluster.logs[kind], notes, cluster.me, value, cutoff, cluster.now - 3_600_000_000_000);
      }
    }

    /** Stamps this replica's note on one canary by read, change and write, three times at most. It fails
        only when a call does or all three writes are refused. */
    method WriteCanary(kind: nat, value: int, ghost bound: int) returns (ok: bool)
      requires WorldOk(cluster.Here()) && NotesBelow(cluster.Here(), cluster.me, bound) && kind < |cluster.logs|
      requires value <= bound && value <= cluster.now
      modifies cluster
      ensures Evolves(old(cluster.Here()), cluster.Here()) && NotesBelow(cluster.Here(), cluster.me, bound)
      ensures ok ==> EndsStamped(cluster.logs[kind], cluster.me, value, cluster.now - 3_600_000_000_000)
      ensures !ok ==> cluster.troubles > old(cluster.troubles) || cluster.refusals == old(cluster.refusals) + 3
      ensures cluster.troubles >= old(cluster.troubles) && cluster.refusals >= old(cluster.refusals)
    {
      ghost var start := cluster.Here();
      for attempt := 0 to 3
        invariant Evolves(start, cluster.Here()) && NotesBelow(cluster.Here(), cluster.me, bound)
        invariant cluster.troubles >= old(cluster.troubles) && cluster.refusals == old(cluster.refusals) + attempt
      {
        ghost var before := cluster.Here();
        var written, conflict := TryCanary(kind, value, bound);
        EvolvesOn(start, before, cluster.Here());
        if written { return true; }
        if !conflict { return false; }
      }
      ok := false;
    }

    /** One look at one canary. */
    method LookAt(kind: nat, value: int, ghost start: World, ghost isNew: bool) returns (seen: bool)
      requires WorldOk(start) && kind < |cluster.logs|
      requires value == start.now && kind < |start.logs| && (isNew ==> !Repeats(start, cluster.me, kind, value))
      requires Evolves(start, cluster.Here()) && NotesBelow(cluster.Here(), cluster.me, value)
      modifies cluster
      ensures Evolves(start, cluster.Here()) && Evolves(old(cluster.Here()), cluster.Here())
      ensures NotesBelow(cluster.Here(), cluster.me, value)
      ensures seen ==> Shows(cluster.Here(), cluster.me, kind, value)
      ensures seen ==> Past(start, cluster.Here(), kind, isNew)
      ensures Shows(cluster.Here(), cluster.me, kind, value) && cluster.troubles == old(cluster.troubles) ==> seen
      ensures cluster.troubles >= old(cluster.troubles) && cluster.refusals == old(cluster.refusals)
    {
      var note := cluster.CachedNote(kind, value);
      EvolvesOn(start, old(cluster.Here()), cluster.Here());
      seen := note == Some(value);
      if seen { SeenIsCurrent(cluster.Here(), cluster.me, kind, value, value); }
      if seen && isNew { SeenIsPast(start, cluster.Here(), cluster.me, value, kind); }
    }

    /** A look goes on to the next canary. */
    method LookNext(i: nat, value: int, ghost start: World, ghost isNew: bool, ghost before: seq<bool>,
                    ghost observed: seq<bool>, ghost met: seq<World>, ghost from: World, ghost troubles: nat)
      returns (seen: bool)
      requires WorldOk(start) && WorldOk(from) && value == start.now && (isNew ==> Unrepeated(start, cluster.me, value))
      requires Evolves(start, cluster.Here()) && Evolves(from, cluster.Here())
      requires NotesBelow(cluster.Here(), cluster.me, value)
      requires i == |met| < |observed| == |before| && !before[i] && !observed[i] && cluster.troubles >= troubles
      requires PastStart(start, cluster.Here(), observed, isNew)
      requires LookedAll(from, met, cluster.Here(), cluster.me, value, before, observed, cluster.troubles == troubles)
      modifies cluster
      ensures Evolves(start, cluster.Here()) && Evolves(from, cluster.Here()) && cluster.now >= old(cluster.now)
      ensures NotesBelow(cluster.Here(), cluster.me, value)
      ensures cluster.troubles >= old(cluster.troubles) && cluster.refusals == old(cluster.refusals)
      ensures PastStart(start, cluster.Here(), observed[i := seen], isNew)
      ensures LookedAll(from, met + [cluster.Here()], cluster.Here(), cluster.me, value, before, observed[i := seen],
                        cluster.troubles == troubles)
    {
      ghost var w, calm := cluster.Here(), cluster.troubles == troubles;
      seen := LookAt(i, value, start, isNew);
      EvolvesOn(from, w, cluster.Here());
      LookedAllOn(from, met, w, cluster.Here(), cluster.me, value, before, observed, calm, cluster.troubles == troubles);
      PastStays(start, w, cluster.Here(), observed, isNew);
    }

    /** One look at every canary not observed yet. */
    method Look(value: int, ghost start: World, ghost isNew: bool, before: seq<bool>)
      returns (observed: seq<bool>, all: bool, ghost met: seq<World>)
      requires WorldOk(start) && value == start.now && (isNew ==> Unrepeated(start, cluster.me, value))
      requires Evolves(start, cluster.Here()) && NotesBelow(cluster.Here(), cluster.me, value)
      requires PastStart(start, cluster.Here(), before, isNew)
      modifies cluster
      ensures Evolves(start, cluster.Here()) && NotesBelow(cluster.Here(), cluster.me, value)
      ensures cluster.now >= old(cluster.now) && Evolves(old(cluster.Here()), cluster.Here())
      ensures PastStart(start, cluster.Here(), observed, isNew)
      ensures all <==> forall i :: 0 <= i < |observed| ==> observed[i]
      ensures |met| == |observed| == |before|
      ensures cluster.troubles >= old(cluster.troubles) && cluster.refusals == old(cluster.refusals)
      ensures LookedAll(old(cluster.Here()), met, cluster.Here(), cluster.me, value, before, observed,
                        cluster.troubles == old(cluster.troubles))
    {
      observed, all, met := before, true, [];
      ghost var unseen := 0;
      ghost var from := cluster.Here();
      for i := 0 to |before|
        invariant Evolves(start, cluster.Here()) && NotesBelow(cluster.Here(), cluster.me, value)
        invariant cluster.now >= old(cluster.now)
        invariant |observed| == |before| && PastStart(start, cluster.Here(), observed, isNew)
        invariant Evolves(from, cluster.Here())
        invariant |met| == i && cluster.troubles >= old(cluster.troubles) && cluster.refusals == old(cluster.refusals)
        invariant forall j :: i <= j < |before| ==> observed[j] == before[j]
        invariant LookedAll(from, met, cluster.Here(), cluster.me, value, before, observed,
                            cluster.troubles == old(cluster.troubles))
        invariant all ==> forall j :: 0 <= j < i ==> observed[j]
        invariant !all ==> 0 <= unseen < i && !observed[unseen]
      {
        if observed[i] {
          met := met + [cluster.Here()];
          continue;
        }
        var seen := LookNext(i, value, start, isNew, before, observed, met, from, old(cluster.troubles));
        met := met + [cluster.Here()];
        observed := observed[i := seen];
        if !seen { all, unseen := false, i; }
      }
    }

    /** Stamps every canary, and stops at the first that cannot be written. */
    method StampAll(value: int) returns (ok: bool)
      requires WorldOk(cluster.Here()) && NotesBelow(cluster.Here(), cluster.me, value)
      requires value <= cluster.now
      modifies cluster
      ensures Evolves(old(cluster.Here()), cluster.Here()) && NotesBelow(cluster.Here(), cluster.me, value)
      ensures !ok ==> cluster.troubles > old(cluster.troubles) || cluster.refusals >= old(cluster.refusals) + 3
      ensures cluster.troubles >= old(cluster.troubles) && cluster.refusals >= old(cluster.refusals)
    {
      ghost var start := cluster.Here();
      for i := 0 to |cluster.logs|
        invariant Evolves(start, cluster.Here()) && NotesBelow(cluster.Here(), cluster.me, value)
        invariant |cluster.logs| == |start.logs|
        invariant cluster.troubles >= old(cluster.troubles) && cluster.refusals >= old(cluster.refusals)
      {
        ghost var before := cluster.Here();
        ok := WriteCanary(i, value, value);
        EvolvesOn(start, before, cluster.Here());
        if !ok { return; }
      }
      ok := true;
    }

    /** Looks until every canary has been observed, for five seconds at most. */
    method AwaitAll(value: int, ghost start: World, ghost isNew: bool) returns (all: bool)
      requires WorldOk(start) && value == start.now && (isNew ==> Unrepeated(start, cluster.me, value))
      requires Evolves(start, cluster.Here()) && NotesBelow(cluster.Here(), cluster.me, value)
      modifies cluster
      ensures Evolves(old(cluster.Here()), cluster.Here()) && NotesBelow(cluster.Here(), cluster.me, value)
      ensures all ==> Reflects(cluster.Here(), start.now) && (isNew ==> LoggedIsShown(start, cluster.Here()))
      ensures !all ==> cluster.troubles > old(cluster.troubles) || cluster.now >= old(cluster.now) + 5_000_000_000
      ensures cluster.troubles >= old(cluster.troubles) && cluster.refusals >= old(cluster.refusals)
    {
      ghost var from := cluster.Here();
      var observed := seq(|cluster.shown|, i => false);
      var deadline := cluster.now + 5_000_000_000;
      while cluster.now < deadline
        invariant Evolves(start, cluster.Here()) && Evolves(from, cluster.Here())
        invariant NotesBelow(cluster.Here(), cluster.me, value)
        invariant PastStart(start, cluster.Here(), observed, isNew)
        invariant cluster.troubles >= old(cluster.troubles) && cluster.refusals >= old(cluster.refusals)
        decreases deadline - cluster.now
      {
        ghost var met, before := [], cluster.Here();
        observed, all, met := Look(value, start, isNew, observed);
        EvolvesOn(from, before, cluster.Here());
        if all {
          AllPast(start, cluster.Here(), observed, isNew);
          return;
        }
        ghost var looked := cluster.Here();
        var fault, done := cluster.Pause(100_000_000, value);
        EvolvesOn(start, looked, cluster.Here());
        EvolvesOn(from, looked, cluster.Here());
        PastStays(start, looked, cluster.Here(), observed, isNew);
        if done { return false; }
      }
      all := false;
    }

    /** Writes every canary and waits until its cache has shown it; only then the clock moves on, to a
        time at which the caches reflect all writes before the probe's own start. */
    method Probe()
      requires Valid()
      modifies this, cluster
      ensures Valid() && lastValue == old(cluster.now)
      ensures successes == old(successes) || successes == old(successes) + 1
      ensures successes == old(successes) ==> lastFresh == old(lastFresh) && began == old(began)
      ensures successes > old(successes) ==> lastFresh == Some(cluster.now) && began == old(cluster.now)
      ensures successes > old(successes) && Unrepeated(old(cluster.Here()), cluster.me, old(cluster.now)) ==>
                LoggedIsShown(old(cluster.Here()), cluster.Here())
      ensures successes == old(successes) ==>
                cluster.troubles > old(cluster.troubles) || cluster.refusals >= old(cluster.refusals) + 3
                || cluster.now >= old(cluster.now) + 5_000_000_000
    {
      ghost var start := cluster.Here();
      ghost var unrepeated := Unrepeated(start, cluster.me, cluster.now);
      var value := cluster.now;
      lastValue := value;
      var ok := StampAll(value);
      if ok {
        ghost var stamped := cluster.Here();
        ok := AwaitAll(value, start, unrepeated);
        EvolvesOn(start, stamped, cluster.Here());
      }
      if ok {
        lastFresh, began, successes := Some(cluster.now), value, successes + 1;
      } else if lastFresh.Some? {
        ReflectsOn(start, cluster.Here(), began);
      }
    }

    /** Whether the replica may decide: then the last successful probe finished less than the bound ago, and
        the caches reflect every write committed before it began. */
    method Fresh(synced: bool) returns (ok: bool)
      requires Valid()
      ensures ok <==> synced && lastFresh.Some? && cluster.now - lastFresh.value < staleBound
      ensures ok ==> began <= lastFresh.value && Reflects(cluster.Here(), began)
    {
      if !synced { return false; }
      ok := lastFresh.Some? && cluster.now - lastFresh.value < staleBound;
    }
  }
}
