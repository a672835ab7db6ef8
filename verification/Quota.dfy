/** The quota figure: authz/authorizer.go, periodUsage. */
module Quota {
  import opened Usage
  import opened Period

  function Max(a: nat, b: nat): nat { if a > b then a else b }

  /** One key's part of the figure: the flushed total, which is at least what this replica is known
      to have written, and what it has not flushed yet. */
  function UsedOn(k: Key, shown: map<Key, nat>, floors: map<Key, nat>, counts: map<Key, Counts>): nat {
    Max(FloorAt(shown, k), FloorAt(floors, k)) + CountsAt(counts, k).allowed
  }

  ghost function Used(shown: map<Key, nat>, floors: map<Key, nat>, counts: map<Key, Counts>,
                      namespace: string, prefix: string, start: int): nat
  {
    Sum(shown.Keys + floors.Keys + counts.Keys, UsedFor(shown, floors, counts, namespace, prefix, start))
  }

  ghost function UsedFor(shown: map<Key, nat>, floors: map<Key, nat>, counts: map<Key, Counts>,
                         namespace: string, prefix: string, start: int): Key -> nat
  {
    (k: Key) => if Counted(k, namespace, prefix, start) then UsedOn(k, shown, floors, counts) else 0
  }

  ghost function WrittenFor(shown: map<Key, nat>, floors: map<Key, nat>,
                            namespace: string, prefix: string, start: int): Key -> nat
  {
    (k: Key) => if Counted(k, namespace, prefix, start) then Max(FloorAt(shown, k), FloorAt(floors, k)) else 0
  }

  /** A rollup as the cache lists it for one namespace and key prefix. */
  datatype Listed = Listed(day: string, allowed: nat)

  /** The listing holds each shown rollup of the key once, and no other; rollup names allow one
      rollup for a key and day. */
  ghost predicate Lists(items: seq<Listed>, shown: map<Key, nat>, namespace: string, prefix: string) {
    && (forall i, j :: 0 <= i < j < |items| ==> items[i].day != items[j].day)
    && (forall i :: 0 <= i < |items| ==> ListsOne(items[i], shown, Key(namespace, prefix, items[i].day)))
    && (forall k :: k in shown && k.namespace == namespace && k.prefix == prefix ==>
          exists i :: 0 <= i < |items| && items[i].day == k.day)
  }

  predicate ListsOne<K>(item: Listed, shown: map<K, nat>, k: K) { k in shown && shown[k] == item.allowed }

  /** Sums the key's listed rollups and unlisted floors of the period, then adds what is buffered. */
  method PeriodUsage(buffer: UsageBuffer, items: seq<Listed>, ghost shown: map<Key, nat>,
                     namespace: string, prefix: string, period: string, now: int) returns (total: nat)
    requires Lists(items, shown, namespace, prefix)
    ensures total == Used(shown, buffer.floors, buffer.counts, namespace, prefix, PeriodStart(now, period))
  {
    var start := PeriodStart(now, period);
    var floors := buffer.AllowedFloors(namespace, prefix, start);
    ghost var q := Query(shown, buffer.floors, namespace, prefix, start);
    total, floors := AddListed(q, items, start, floors);
    ghost var done;
    total, done := AddUnlisted(q, KeysOf(q, items, |items|), floors, total);
    var buffered := buffer.UnflushedAllowed(namespace, prefix, start);
    TallyEnd(q, items, done, total, buffer.counts);
    total := total + buffered;
  }

  /** The listed rollups of the period, each at least its floor; the floors met are removed. */
  method AddListed(ghost q: Query, items: seq<Listed>, start: int, byDay: map<string, nat>)
    returns (total: nat, floors: map<string, nat>)
    requires Lists(items, q.shown, q.namespace, q.prefix) && start == q.start && Tallied(q, byDay, {}, 0)
    ensures Tallied(q, floors, KeysOf(q, items, |items|), total)
  {
    total, floors := 0, byDay;
    for i := 0 to |items|
      invariant Tallied(q, floors, KeysOf(q, items, i), total)
    {
      var r := items[i];
      KeysStep(q, items, i);
      TallyStep(q, floors, KeysOf(q, items, i), total, r.day, r.allowed);
      if DayFrom(r.day, start) {
        var allowed := r.allowed;
        if r.day in floors {
          if floors[r.day] > allowed { allowed := floors[r.day]; }
          floors := floors - {r.day};
        }
        total := total + allowed;
      }
    }
  }

  /** Adds the floors no listed rollup has met. */
  method AddUnlisted(ghost q: Query, ghost listed: set<Key>, floors: map<string, nat>, sum: nat)
    returns (total: nat, ghost done: set<Key>)
    requires Tallied(q, floors, listed, sum) && ShownIn(q, listed)
    ensures listed <= done && Tallied(q, map[], done, total)
  {
    total, done := sum, listed;
    var left := floors;
    while left.Keys != {}
      invariant listed <= done && Tallied(q, left, done, total)
      decreases |left.Keys|
    {
      var d :| d in left.Keys;
      assert FloorLeft(q, left, done, d);
      TallyStep(q, left, done, total, d, 0);
      done := done + {q.KeyOf(d)};
      total := total + left[d];
      left := left - {d};
    }
  }

  /** What one figure is computed from, apart from the buffered counts. */
  datatype Query = Query(shown: map<Key, nat>, floors: map<Key, nat>, namespace: string, prefix: string, start: int) {
    ghost function Written(): Key -> nat { WrittenFor(shown, floors, namespace, prefix, start) }

    function KeyOf(day: string): Key { Key(namespace, prefix, day) }
  }

  /** The keys `done` are summed, and the floors of the others are left. */
  ghost predicate Tallied(q: Query, left: map<string, nat>, done: set<Key>, total: nat) {
    && total == Sum(done, q.Written())
    && forall d :: FloorLeft(q, left, done, d)
  }

  ghost predicate FloorLeft(q: Query, left: map<string, nat>, done: set<Key>, d: string) {
    LeftAt(left, q.floors, done, q.KeyOf(d), d, q.start)
  }

  ghost predicate LeftAt<D>(left: map<D, nat>, floors: map<Key, nat>, done: set<Key>, k: Key, d: D, start: int) {
    && (d in left <==> k in floors && DayFrom(k.day, start) && k !in done)
    && (d in left ==> left[d] == floors[k])
  }

  lemma TallyEnd(q: Query, items: seq<Listed>, done: set<Key>, total: nat, counts: map<Key, Counts>)
    requires Lists(items, q.shown, q.namespace, q.prefix)
    requires KeysOf(q, items, |items|) <= done && Tallied(q, map[], done, total)
    ensures total + Unflushed(counts, q.namespace, q.prefix, q.start)
            == Used(q.shown, q.floors, counts, q.namespace, q.prefix, q.start)
  {
    var buffered := (k: Key) => if Counted(k, q.namespace, q.prefix, q.start) then CountsAt(counts, k).allowed else 0;
    var keys := q.shown.Keys + q.floors.Keys + counts.Keys;
    forall k: Key | k !in done ensures q.Written()(k) == 0 { TallyRest(q, items, done, total, k); }
    SumSupport(done, keys + done, q.Written());
    SumSupport(counts.Keys, keys + done, buffered);
    SumPlus(keys + done, q.Written(), buffered, UsedFor(q.shown, q.floors, counts, q.namespace, q.prefix, q.start));
    SumSupport(keys, keys + done, UsedFor(q.shown, q.floors, counts, q.namespace, q.prefix, q.start));
  }

  lemma TallyRest(q: Query, items: seq<Listed>, done: set<Key>, total: nat, k: Key)
    requires Lists(items, q.shown, q.namespace, q.prefix)
    requires KeysOf(q, items, |items|) <= done && Tallied(q, map[], done, total)
    requires k !in done
    ensures q.Written()(k) == 0
  {
    if Counted(k, q.namespace, q.prefix, q.start) {
      assert k == q.KeyOf(k.day);
      assert FloorLeft(q, map[], done, k.day);
    }
  }

  lemma TallyStep(q: Query, left: map<string, nat>, done: set<Key>, total: nat, day: string, shown: nat)
    requires Tallied(q, left, done, total) && q.KeyOf(day) !in done
    requires shown == FloorAt(q.shown, q.KeyOf(day))
    ensures day in left ==> DayFrom(day, q.start)
    ensures !DayFrom(day, q.start) ==> Tallied(q, left, done + {q.KeyOf(day)}, total)
    ensures DayFrom(day, q.start) && day !in left ==> Tallied(q, left, done + {q.KeyOf(day)}, total + shown)
    ensures day in left ==> Tallied(q, left - {day}, done + {q.KeyOf(day)}, total + Max(shown, left[day]))
  {
    var k := q.KeyOf(day);
    assert FloorLeft(q, left, done, day);
    if day !in left { AbsentDay(left, day); }
    Grow(done, q.Written(), k);
    forall d ensures FloorLeft(q, left - {day}, done + {k}, d) {
      assert FloorLeft(q, left, done, d);
    }
  }

  ghost function KeysOf(q: Query, items: seq<Listed>, i: nat): set<Key>
    requires i <= |items|
  {
    set j | 0 <= j < i :: q.KeyOf(items[j].day)
  }

  ghost predicate ShownIn(q: Query, done: set<Key>) {
    forall d :: q.KeyOf(d) in q.shown ==> q.KeyOf(d) in done
  }

  lemma AbsentDay<D, V>(m: map<D, V>, d: D)
    requires d !in m
    ensures m - {d} == m
  {
  }

  lemma KeysStep(q: Query, items: seq<Listed>, i: nat)
    requires Lists(items, q.shown, q.namespace, q.prefix) && i < |items|
    ensures FloorAt(q.shown, q.KeyOf(items[i].day)) == items[i].allowed
    ensures q.KeyOf(items[i].day) !in KeysOf(q, items, i)
    ensures KeysOf(q, items, i + 1)
            == KeysOf(q, items, i) + {q.KeyOf(items[i].day)}
  {
  }

  lemma Grow<K>(done: set<K>, f: K -> nat, k: K)
    requires k !in done
    ensures Sum(done + {k}, f) == Sum(done, f) + f(k)
  {
    SumTake(done + {k}, f, k);
    assert done + {k} - {k} == done;
  }
}
