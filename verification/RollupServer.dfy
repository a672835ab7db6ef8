/** The API server's rollup objects, which other replicas write at the same time: the client side of
    authz/usage.go's optimistic concurrency. Beside the server a replica of the protocol takes a step
    for each of our calls. */
module RollupServer {
  import opened Wrappers
  import opened Usage
  import P = UsageProtocol
  import S = Shadow

  datatype Rollup = Rollup(counts: Counts, version: nat)

  /** Another replica's landed write: it adds to the rollup, creating it when it is missing. */
  datatype Foreign<N> = Foreign(name: N, counts: Counts)

  /** What happens just before one of our calls is served: other replicas' writes land, and then
      the call may fail without taking effect. */
  datatype Event<N> = Event(writes: seq<Foreign<N>>, fault: bool)

  datatype Reply = Done | Found(rollup: Rollup) | NotFound | AlreadyExists | Conflict | Fault

  function Total<N>(objects: map<N, Rollup>, n: N): Counts { if n in objects then objects[n].counts else Zero() }

  function Given<N>(others: map<N, Counts>, n: N): Counts { if n in others then others[n] else Zero() }

  /** A rollup's total grew by what others gave it and by `ours`. */
  predicate Gain(total: Counts, given: Counts, total': Counts, given': Counts, ours: Counts) {
    && total'.allowed + given.allowed == total.allowed + given'.allowed + ours.allowed
    && total'.deniedRate + given.deniedRate == total.deniedRate + given'.deniedRate + ours.deniedRate
    && total'.deniedQuota + given.deniedQuota == total.deniedQuota + given'.deniedQuota + ours.deniedQuota
  }

  predicate Adds(a: Counts, b: Counts, c: Counts) {
    a.allowed + b.allowed == c.allowed && a.deniedRate + b.deniedRate == c.deniedRate
    && a.deniedQuota + b.deniedQuota == c.deniedQuota
  }

  /** Between two moments the named rollup changed by what others gave it and by `ours`. */
  predicate Balance<N>(m: World<N>, m': World<N>, n: N, ours: Counts) {
    Gain(Total(m.objects, n), Given(m.others, n), Total(m'.objects, n), Given(m'.others, n), ours)
  }

  /** The rollup objects and what other replicas have given each. */
  datatype World<N> = World(objects: map<N, Rollup>, others: map<N, Counts>)

  predicate Newer(r: Rollup, r': Rollup) {
    && r.version <= r'.version && r.counts.allowed <= r'.counts.allowed
    && (r.version == r'.version ==> r.counts == r'.counts)
  }

  /** One rollup over time under other replicas alone: it stays, and its version grows with every
      change. */
  predicate MovedAt<N>(m: World<N>, m': World<N>, n: N) {
    && Balance(m, m', n, Zero())
    && (n in m.objects ==> n in m'.objects && Newer(m.objects[n], m'.objects[n]))
  }

  ghost predicate Moved<N(!new)>(m: World<N>, m': World<N>) { forall n :: MovedAt(m, m', n) }

  /** Others moved things on, and one write of ours added `c` to one rollup. */
  ghost predicate Added<N(!new)>(m: World<N>, m': World<N>, n: N, c: Counts) {
    forall x :: AddedAt(m, m', x, n, c)
  }

  predicate AddedAt<N>(m: World<N>, m': World<N>, x: N, n: N, c: Counts) { Balance(m, m', x, OneAt(x, n, c)) }

  function OneAt<N(==)>(x: N, n: N, c: Counts): Counts { if x == n then c else Zero() }

  lemma BalanceChain<N>(m: World<N>, m': World<N>, m'': World<N>, n: N, a: Counts, b: Counts, c: Counts)
    requires Balance(m, m', n, a) && Balance(m', m'', n, b) && c == a.Plus(b)
    ensures Balance(m, m'', n, c)
  {
  }

  lemma MovedChain<N(!new)>(m: World<N>, m': World<N>, m'': World<N>)
    requires Moved(m, m') && Moved(m', m'')
    ensures Moved(m, m'')
  {
    forall n ensures MovedAt(m, m'', n) {
      MovedAtChain(m, m', m'', n);
    }
  }

  lemma MovedAtChain<N>(m: World<N>, m': World<N>, m'': World<N>, n: N)
    requires MovedAt(m, m', n) && MovedAt(m', m'', n)
    ensures MovedAt(m, m'', n)
  {
  }

  lemma MovedThenAdded<N(!new)>(m: World<N>, m': World<N>, m'': World<N>, n: N, c: Counts)
    requires Moved(m, m') && Added(m', m'', n, c)
    ensures Added(m, m'', n, c)
  {
    forall x ensures AddedAt(m, m'', x, n, c) {
      assert MovedAt(m, m', x) && AddedAt(m', m'', x, n, c);
      var d := OneAt(x, n, c);
      PlusZero(d);
      BalanceChain(m, m', m'', x, Zero(), d, d);
    }
  }

  // ----- The protocol behind it ---------------------------------------------------------------------

  /** `name` gives the rollup of a key, if the key has one; no two keys share one. */
  ghost predicate Injective<K(!new), N>(name: K -> Option<N>) {
    forall k, m :: name(k).Some? && name(k) == name(m) ==> k == m
  }

  /** The rollup of the protocol is the object: its version is the number of its writes. */
  predicate Mirrors<K, N>(objects: map<N, Rollup>, hist: P.Hist<K>, n: N, k: K) {
    var past := P.HistoryOf(hist, k);
    if n in objects
    then 0 < |past| == objects[n].version && P.LatestOf(past) == objects[n].counts
    else past == []
  }

  predicate MirrorsAt<K, N>(objects: map<N, Rollup>, hist: P.Hist<K>, name: K -> Option<N>, k: K) {
    name(k).Some? ==> Mirrors(objects, hist, name(k).value, k)
  }

  ghost predicate AllMirror<K(!new), N>(objects: map<N, Rollup>, hist: P.Hist<K>, name: K -> Option<N>) {
    forall k: K :: MirrorsAt(objects, hist, name, k)
  }

  function Written<N>(objects: map<N, Rollup>, n: N, c: Counts): map<N, Rollup> {
    objects[n := if n in objects then Rollup(objects[n].counts.Plus(c), objects[n].version + 1) else Rollup(c, 1)]
  }

  lemma MirrorsWritten<K, N>(objects: map<N, Rollup>, hist: P.Hist<K>, n: N, k: K, c: Counts)
    requires Mirrors(objects, hist, n, k)
    ensures Mirrors(Written(objects, n, c), S.Extended(hist, k, c), n, k)
  {
    PlusZero(c);
  }

  lemma AllMirrorWritten<K(!new), N>(objects: map<N, Rollup>, hist: P.Hist<K>, name: K -> Option<N>, k: K, n: N, c: Counts)
    requires Injective(name) && name(k) == Some(n) && AllMirror(objects, hist, name)
    ensures AllMirror(Written(objects, n, c), S.Extended(hist, k, c), name)
  {
    forall x: K ensures MirrorsAt(Written(objects, n, c), S.Extended(hist, k, c), name, x) {
      assert MirrorsAt(objects, hist, name, x);
      if x == k { MirrorsWritten(objects, hist, n, k, c); }
    }
  }

  /** A write to an object of no key. */
  lemma AllMirrorOther<K(!new), N>(objects: map<N, Rollup>, hist: P.Hist<K>, name: K -> Option<N>, n: N, c: Counts)
    requires AllMirror(objects, hist, name) && forall k: K :: name(k) != Some(n)
    ensures AllMirror(Written(objects, n, c), hist, name)
  {
    forall x: K ensures MirrorsAt(Written(objects, n, c), hist, name, x) { assert MirrorsAt(objects, hist, name, x); }
  }

  lemma MirrorRead<K(!new), N>(objects: map<N, Rollup>, hist: P.Hist<K>, name: K -> Option<N>, k: K, n: N)
    requires AllMirror(objects, hist, name) && name(k) == Some(n)
    ensures |P.HistoryOf(hist, k)| == (if n in objects then objects[n].version else 0)
    ensures n in objects ==> objects[n].version > 0
    ensures P.Latest(hist, k) == Total(objects, n)
  {
    assert MirrorsAt(objects, hist, name, k);
  }

  /** What a read shows of a rollup. */
  function VersionRead(r: Reply): nat { if r.Found? then r.rollup.version else 0 }

  function CountsRead(r: Reply): Counts { if r.Found? then r.rollup.counts else Zero() }

  /** A replica of the protocol after its read for `k` was answered. */
  function AfterGet<K>(rep: P.Replica<K>, k: K, r: Reply): P.Replica<K>
    requires rep.work.Attempt?
  {
    if r.Fault? then P.Fail(rep, k) else rep.(work := P.HasRead(k, rep.work.tries, VersionRead(r), CountsRead(r)))
  }

  /** And after its write was. */
  function AfterWrite<K>(rep: P.Replica<K>, r: Reply): P.Replica<K>
    requires rep.work.HasRead?
  {
    if r.Done? then P.Land(rep, rep.work.key, rep.work.seen) else S.Refused(rep, r.Fault?)
  }

  /** The replica is about to write what it has drained for `k`, on top of what it read. */
  predicate Writes<K>(rep: P.Replica<K>, k: K, c: Counts, version: nat, seen: Counts) {
    rep.work.HasRead? && rep.work.key == k && rep.work.version == version && rep.work.seen == seen
    && CountsAt(rep.batch, k) == c
  }

  lemma WrittenAdds<N(!new)>(m: World<N>, m': World<N>, m'': World<N>, n: N, c: Counts)
    requires Moved(m, m') && m'' == World(Written(m'.objects, n, c), m'.others)
    ensures Added(m, m'', n, c) && Total(m''.objects, n) == Total(m'.objects, n).Plus(c)
  {
    PlusZero(c);
    forall x ensures AddedAt(m', m'', x, n, c) { }
    MovedThenAdded(m, m', m'', n, c);
  }

  /** The API server; beside it, a replica of the protocol takes a step for each call. */
  class ApiServer<K(==,!new), N(==,!new)> {
    var objects: map<N, Rollup>
    var script: seq<Event<N>>
    const name: K -> Option<N>
    ghost const days: K -> Option<int>
    ghost var others: map<N, Counts>
    ghost var faults: nat
    ghost var refusals: nat
    ghost var origin: S.Shadow<K>
    ghost var shadow: S.Shadow<K>
    ghost var moves: seq<S.Move<K>>

    constructor (script: seq<Event<N>>, name: K -> Option<N>, ghost days: K -> Option<int>)
      requires Injective(name)
      ensures Valid() && objects == map[] && this.script == script && this.name == name && this.days == days
      ensures shadow == S.Shadow(P.NewReplica(0), map[])
    {
      objects, this.script, others, faults, refusals := map[], script, map[], 0, 0;
      origin, shadow, moves := S.Shadow(P.NewReplica(0), map[]), S.Shadow(P.NewReplica(0), map[]), [];
      this.name, this.days := name, days;
    }

    ghost function Now(): World<N>
      reads this
    {
      World(objects, others)
    }

    /** The protocol has come here by these moves, and shows the same rollups. */
    ghost predicate Valid()
      reads this
    {
      Injective(name) && S.FollowAll(origin, days, moves) == shadow && AllMirror(objects, shadow.hist, name)
    }

    ghost method Move(m: S.Move<K>)
      requires S.FollowAll(origin, days, moves) == shadow
      modifies this`shadow, this`moves
      ensures S.FollowAll(origin, days, moves) == shadow == S.Follow(old(shadow), days, m) && old(moves) <= moves
    {
      S.FollowSnoc(origin, days, moves, m);
      shadow, moves := S.Follow(shadow, days, m), moves + [m];
    }

    ghost method Show(k: K, n: N, r: Reply)
      requires Valid() && shadow.replica.work.Attempt? && shadow.replica.work.key == k && name(k) == Some(n)
      requires r.Fault? || r == if n in objects then Found(objects[n]) else NotFound
      modifies this`shadow, this`moves
      ensures Valid() && old(moves) <= moves && shadow.replica == AfterGet(old(shadow.replica), k, r)
      ensures r.Found? ==> r.rollup.version > 0
    {
      MirrorRead(objects, shadow.hist, name, k, n);
      S.GetReads(shadow, days, r.Fault?);
      Move(S.Ours(P.Get(r.Fault?)));
    }

    ghost method Refuse(fault: bool)
      requires Valid() && shadow.replica.work.HasRead?
      requires fault || shadow.replica.work.version != |P.HistoryOf(shadow.hist, shadow.replica.work.key)|
      modifies this`shadow, this`moves
      ensures Valid() && old(moves) <= moves && shadow.replica == S.Refused(old(shadow.replica), fault)
    {
      S.WriteRefused(shadow, days, fault);
      Move(S.Ours(P.Write(fault)));
    }

    /** The object as a landed write of ours leaves it. */
    method Store(ghost k: K, n: N, c: Counts, ghost version: nat, ghost seen: Counts)
      requires Valid() && Writes(shadow.replica, k, c, version, seen) && name(k) == Some(n)
      requires version == |P.HistoryOf(shadow.hist, k)| && seen == P.Latest(shadow.hist, k)
      modifies this`objects, this`shadow, this`moves
      ensures Valid() && old(moves) <= moves && shadow.replica == P.Land(old(shadow.replica), k, seen)
      ensures objects == Written(old(objects), n, c)
    {
      S.WriteLands(shadow, days);
      AllMirrorWritten(objects, shadow.hist, name, k, n, c);
      objects := Written(objects, n, c);
      Move(S.Ours(P.Write(false)));
    }

    /** Serves what comes before one of our calls; past the end of the script nothing does. */
    method Interfere() returns (fault: bool)
      requires Valid()
      modifies this`objects, this`script, this`others, this`faults, this`shadow, this`moves
      ensures Valid() && old(moves) <= moves && shadow.replica == old(shadow.replica)
      ensures Moved(old(Now()), Now())
      ensures faults == old(faults) + (if fault then 1 else 0) && refusals == old(refusals)
    {
      fault := false;
      if script != [] {
        var Event(writes, f) := script[0];
        script, fault := script[1..], f;
        if fault { faults := faults + 1; }
        ghost var before := Now();
        for i := 0 to |writes|
          invariant Moved(before, Now())
          invariant Valid() && old(moves) <= moves && shadow.replica == old(shadow.replica)
          invariant faults == old(faults) + (if fault then 1 else 0) && refusals == old(refusals)
        {
          ghost var m := Now();
          Land(writes[i]);
          MovedChain(before, m, Now());
        }
      }
    }

    method Land(w: Foreign<N>)
      requires Valid()
      modifies this`objects, this`others, this`shadow, this`moves
      ensures Moved(old(Now()), Now())
      ensures Valid() && old(moves) <= moves && shadow.replica == old(shadow.replica)
    {
      ghost var before := objects;
      objects := Written(objects, w.name, w.counts);
      Witness(before, w);
      others := others[w.name := Given(others, w.name).Plus(w.counts)];
      forall n ensures MovedAt(old(Now()), Now(), n) { }
    }

    /** The protocol sees another replica's write if it is to the rollup of a key. */
    ghost method Witness(before: map<N, Rollup>, w: Foreign<N>)
      requires Injective(name) && S.FollowAll(origin, days, moves) == shadow && AllMirror(before, shadow.hist, name)
      requires objects == Written(before, w.name, w.counts)
      modifies this`shadow, this`moves
      ensures Valid() && old(moves) <= moves && shadow.replica == old(shadow.replica)
    {
      if k: K :| name(k) == Some(w.name) {
        AllMirrorWritten(before, shadow.hist, name, k, w.name, w.counts);
        Move(S.Theirs(k, w.counts));
      } else {
        AllMirrorOther(before, shadow.hist, name, w.name, w.counts);
      }
    }

    method Get(ghost k: K, n: N) returns (r: Reply)
      requires Valid() && shadow.replica.work.Attempt? && shadow.replica.work.key == k && name(k) == Some(n)
      modifies this`objects, this`script, this`others, this`faults, this`shadow, this`moves
      ensures Valid() && old(moves) <= moves && shadow.replica == AfterGet(old(shadow.replica), k, r)
      ensures Moved(old(Now()), Now())
      ensures r.Fault? || r == if n in objects then Found(objects[n]) else NotFound
      ensures r.Found? ==> r.rollup.version > 0
      ensures faults == old(faults) + (if r.Fault? then 1 else 0) && refusals == old(refusals)
    {
      var fault := Interfere();
      r := if fault then Fault else if n in objects then Found(objects[n]) else NotFound;
      Show(k, n, r);
    }

    /** A write on top of the version that was read, zero for a missing object: it applies only if that
        version is still there. */
    method Put(ghost k: K, n: N, c: Counts, version: nat, ghost seen: Counts, clash: Reply) returns (r: Reply)
      requires Valid() && Writes(shadow.replica, k, c, version, seen) && name(k) == Some(n) && Reads(n, version, seen)
      requires clash.AlreadyExists? || clash.Conflict?
      modifies this`objects, this`script, this`others, this`faults, this`refusals, this`shadow, this`moves
      ensures Valid() && old(moves) <= moves && shadow.replica == AfterWrite(old(shadow.replica), r)
      ensures r.Done? || r.Fault? || r == clash
      ensures faults == old(faults) + (if r.Fault? then 1 else 0)
      ensures refusals == old(refusals) + (if r == clash then 1 else 0)
      ensures !r.Done? ==> Moved(old(Now()), Now())
      ensures r.Done? ==> Added(old(Now()), Now(), n, c) && Total(objects, n) == seen.Plus(c)
    {
      var fault := Interfere();
      assert MovedAt(old(Now()), Now(), n);
      MirrorRead(objects, shadow.hist, name, k, n);
      if fault {
        Refuse(true);
        return Fault;
      }
      if (if n in objects then objects[n].version else 0) != version {
        Refuse(false);
        refusals := refusals + 1;
        return clash;
      }
      ghost var m := Now();
      assert Total(m.objects, n) == seen;
      Store(k, n, c, version, seen);
      WrittenAdds(old(Now()), m, Now(), n, c);
      return Done;
    }

    /** What was read of an object, or that it was missing. */
    ghost predicate Reads(n: N, version: nat, seen: Counts)
      reads this
    {
      if version == 0 then seen == Zero() else n in objects && objects[n] == Rollup(seen, version)
    }

    /** Creates the object unless it exists. */
    method Create(ghost k: K, n: N, c: Counts) returns (r: Reply)
      requires Valid() && Writes(shadow.replica, k, c, 0, Zero()) && name(k) == Some(n)
      modifies this`objects, this`script, this`others, this`faults, this`refusals, this`shadow, this`moves
      ensures Valid() && old(moves) <= moves && shadow.replica == AfterWrite(old(shadow.replica), r)
      ensures r.Done? || r.Fault? || r.AlreadyExists?
      ensures faults == old(faults) + (if r.Fault? then 1 else 0)
      ensures refusals == old(refusals) + (if r.AlreadyExists? then 1 else 0)
      ensures !r.Done? ==> Moved(old(Now()), Now())
      ensures r.Done? ==> Added(old(Now()), Now(), n, c) && Total(objects, n) == c
    {
      PlusZero(c);
      r := Put(k, n, c, 0, Zero(), AlreadyExists);
    }

    /** Replaces the object with what was read plus `c`, if it is still at the version read. */
    method Update(ghost k: K, n: N, read: Rollup, c: Counts) returns (r: Reply)
      requires n in objects && objects[n] == read && read.version > 0 && name(k) == Some(n)
      requires Valid() && Writes(shadow.replica, k, c, read.version, read.counts)
      modifies this`objects, this`script, this`others, this`faults, this`refusals, this`shadow, this`moves
      ensures Valid() && old(moves) <= moves && shadow.replica == AfterWrite(old(shadow.replica), r)
      ensures r.Done? || r.Fault? || r.Conflict?
      ensures faults == old(faults) + (if r.Fault? then 1 else 0)
      ensures refusals == old(refusals) + (if r.Conflict? then 1 else 0)
      ensures !r.Done? ==> Moved(old(Now()), Now())
      ensures r.Done? ==> Added(old(Now()), Now(), n, c) && Total(objects, n) == read.counts.Plus(c)
    {
      r := Put(k, n, c, read.version, read.counts, Conflict);
    }
  }
}
