/** The usage buffer of one gateway replica and the flush of one entry: authz/usage.go. */
module Usage {
  import Calendar
  import opened Period

  datatype Counter = CounterAllowed | CounterDeniedRate | CounterDeniedQuota

  datatype Key = Key(namespace: string, prefix: string, day: string)

  datatype Counts = Counts(allowed: nat, deniedRate: nat, deniedQuota: nat) {
    function Plus(other: Counts): Counts {
      Counts(allowed + other.allowed, deniedRate + other.deniedRate, deniedQuota + other.deniedQuota)
    }

    function Bump(counter: Counter): Counts {
      match counter
      case CounterAllowed => this.(allowed := allowed + 1)
      case CounterDeniedRate => this.(deniedRate := deniedRate + 1)
      case CounterDeniedQuota => this.(deniedQuota := deniedQuota + 1)
    }
  }

  function Zero(): Counts { Counts(0, 0, 0) }

  function CountsAt<K>(m: map<K, Counts>, k: K): Counts { if k in m then m[k] else Zero() }

  function FloorAt<K>(m: map<K, nat>, k: K): nat { if k in m then m[k] else 0 }

  /** Whether the day reads as a date on or after `start`. */
  predicate DayFrom(day: string, start: int) {
    var parsed := Calendar.Parse(day);
    parsed.Some? && start <= Midnight(parsed.value)
  }

  predicate Counted(k: Key, namespace: string, prefix: string, start: int) {
    k.namespace == namespace && k.prefix == prefix && DayFrom(k.day, start)
  }

  // ----- Sums over finitely many keys -------------------------------------------------------------

  ghost function Sum<K>(keys: set<K>, f: K -> nat): nat
    decreases |keys|
  {
    if keys == {} then 0 else f(Pick(keys)) + Sum(keys - {Pick(keys)}, f)
  }

  ghost function Pick<K>(keys: set<K>): (k: K)
    requires keys != {}
    ensures k in keys
  {
    var k :| k in keys; k
  }

  lemma {:induction false} SumTake<K>(keys: set<K>, f: K -> nat, k: K)
    requires k in keys
    ensures Sum(keys, f) == f(k) + Sum(keys - {k}, f)
    decreases |keys|
  {
    var first := Pick(keys);
    if first != k {
      SumTake(keys - {first}, f, k);
      SumTake(keys - {k}, f, first);
      assert keys - {first} - {k} == keys - {k} - {first};
    }
  }

  lemma {:induction false} SumLeq<K>(keys: set<K>, f: K -> nat, g: K -> nat)
    requires forall k :: k in keys ==> f(k) <= g(k)
    ensures Sum(keys, f) <= Sum(keys, g)
    decreases |keys|
  {
    if keys != {} {
      var k :| k in keys;
      SumTake(keys, f, k);
      SumTake(keys, g, k);
      SumLeq(keys - {k}, f, g);
    }
  }

  lemma {:induction false} SumEqual<K>(keys: set<K>, f: K -> nat, g: K -> nat)
    requires forall k :: k in keys ==> f(k) == g(k)
    ensures Sum(keys, f) == Sum(keys, g)
  {
    SumLeq(keys, f, g);
    SumLeq(keys, g, f);
  }

  lemma {:induction false} SumPlus<K>(keys: set<K>, f: K -> nat, g: K -> nat, h: K -> nat)
    requires forall k :: k in keys ==> h(k) == f(k) + g(k)
    ensures Sum(keys, h) == Sum(keys, f) + Sum(keys, g)
    decreases |keys|
  {
    if keys != {} {
      var k :| k in keys;
      SumTake(keys, f, k);
      SumTake(keys, g, k);
      SumTake(keys, h, k);
      SumPlus(keys - {k}, f, g, h);
    }
  }

  /** Keys on which the summand is zero do not matter. */
  lemma {:induction false} SumSupport<K>(keys: set<K>, more: set<K>, f: K -> nat)
    requires keys <= more && forall k :: k in more - keys ==> f(k) == 0
    ensures Sum(keys, f) == Sum(more, f)
    decreases |more|
  {
    if more - keys == {} {
      assert more == keys;
    } else {
      var k :| k in more - keys;
      SumTake(more, f, k);
      SumSupport(keys, more - {k}, f);
    }
  }

  // ----- The buffer ---------------------------------------------------------------------------------

  /** What the buffer holds of one key's allowed requests from `start` on. */
  ghost function Unflushed(counts: map<Key, Counts>, namespace: string, prefix: string, start: int): nat {
    Sum(counts.Keys, (k: Key) => if Counted(k, namespace, prefix, start) then CountsAt(counts, k).allowed else 0)
  }

  class UsageBuffer {
    var counts: map<Key, Counts>
    var floors: map<Key, nat>

    constructor ()
      ensures counts == map[] && floors == map[]
    {
      counts, floors := map[], map[];
    }

    method Add(k: Key, counter: Counter)
      modifies this`counts
      ensures counts == old(counts)[k := CountsAt(old(counts), k).Bump(counter)]
    {
      ghost var original := counts;
      if k !in counts { counts := counts[k := Zero()]; }
      counts := counts[k := counts[k].Bump(counter)];
      assert counts == original[k := CountsAt(original, k).Bump(counter)];
    }

    method UnflushedAllowed(namespace: string, prefix: string, start: int) returns (total: nat)
      ensures total == Unflushed(counts, namespace, prefix, start)
    {
      var m := counts;
      ghost var f := (k: Key) => if Counted(k, namespace, prefix, start) then CountsAt(m, k).allowed else 0;
      total := 0;
      var left := m.Keys;
      while left != {}
        invariant left <= m.Keys && total + Sum(left, f) == Sum(m.Keys, f)
        decreases |left|
      {
        var k :| k in left;
        SumTake(left, f, k);
        if Counted(k, namespace, prefix, start) { total := total + m[k].allowed; }
        left := left - {k};
      }
    }

    method PruneFloors(before: int)
      modifies this`floors
      ensures floors == Pruned(old(floors), before)
    {
      var left := floors.Keys;
      ghost var original := floors;
      while left != {}
        invariant left <= floors.Keys <= original.Keys
        invariant forall k :: k in floors ==> floors[k] == original[k]
        invariant forall k :: k in original ==> (k in floors <==> k in left || DayFrom(k.day, before))
        decreases |left|
      {
        var k :| k in left;
        if !DayFrom(k.day, before) { floors := floors - {k}; }
        left := left - {k};
      }
      assert floors.Keys == Pruned(original, before).Keys;
    }

    method SetFloor(k: Key, allowedTotal: nat)
      modifies this`floors
      ensures floors == Raised(old(floors), k, allowedTotal)
    {
      if allowedTotal > FloorAt(floors, k) { floors := floors[k := allowedTotal]; }
    }

    method AllowedFloors(namespace: string, prefix: string, start: int) returns (out: map<string, nat>)
      ensures out == FloorsByDay(floors, namespace, prefix, start)
    {
      out := map[];
      var left := floors.Keys;
      while left != {}
        invariant left <= floors.Keys
        invariant forall d :: d in out <==> Key(namespace, prefix, d) in floors.Keys - left && DayFrom(d, start)
        invariant forall d :: d in out ==> out[d] == floors[Key(namespace, prefix, d)]
        decreases |left|
      {
        var k :| k in left;
        if Counted(k, namespace, prefix, start) { out := out[k.day := floors[k]]; }
        left := left - {k};
      }
      assert out.Keys == FloorsByDay(floors, namespace, prefix, start).Keys;
    }

    method Drain() returns (out: map<Key, Counts>)
      modifies this`counts
      ensures out == old(counts) && counts == map[]
    {
      out := counts;
      counts := map[];
    }

    method Restore(failed: map<Key, Counts>)
      modifies this`counts
      ensures counts == Merged(old(counts), failed)
    {
      var left := failed.Keys;
      ghost var original := counts;
      while left != {}
        invariant left <= failed.Keys && counts.Keys == original.Keys + (failed.Keys - left)
        invariant forall k :: k in counts && (k !in failed || k in left) ==> counts[k] == original[k]
        invariant forall k :: k in failed && k !in left ==> counts[k] == CountsAt(original, k).Plus(failed[k])
        decreases |left|
      {
        var k :| k in left;
        if k !in counts {
          counts := counts[k := failed[k]];
        } else {
          counts := counts[k := counts[k].Plus(failed[k])];
        }
        left := left - {k};
      }
      assert counts.Keys == Merged(original, failed).Keys;
    }
  }

  /** The floors whose day still reads as one on or after `before`. */
  function Pruned(floors: map<Key, nat>, before: int): map<Key, nat> {
    map k | k in floors && DayFrom(k.day, before) :: floors[k]
  }

  /** A floor is only ever raised. */
  function Raised<K>(floors: map<K, nat>, k: K, total: nat): map<K, nat> {
    if total > FloorAt(floors, k) then floors[k := total] else floors
  }

  /** The floors of one key by day. */
  function FloorsByDay(floors: map<Key, nat>, namespace: string, prefix: string, start: int): map<string, nat> {
    map k | k in floors && Counted(k, namespace, prefix, start) :: k.day := floors[k]
  }

  /** Counts added key by key. */
  function Merged<K>(a: map<K, Counts>, b: map<K, Counts>): map<K, Counts> {
    a + map k | k in b :: CountsAt(a, k).Plus(b[k])
  }

  lemma {:induction false} MergedAt<K>(a: map<K, Counts>, b: map<K, Counts>, k: K)
    ensures CountsAt(Merged(a, b), k) == CountsAt(a, k).Plus(CountsAt(b, k))
  {
    MergedKey(a, b, k);
    if k in b { MergedValue(a, b, k); } else { PlusZero(CountsAt(a, k)); }
  }

  lemma MergedKey<K>(a: map<K, Counts>, b: map<K, Counts>, k: K)
    ensures k in Merged(a, b) <==> k in a || k in b
    ensures k in a && k !in b ==> Merged(a, b)[k] == a[k]
  {
  }

  lemma MergedValue<K>(a: map<K, Counts>, b: map<K, Counts>, k: K)
    requires k in b
    ensures k in Merged(a, b) && Merged(a, b)[k] == CountsAt(a, k).Plus(b[k])
  {
  }

  lemma PlusZero(c: Counts)
    ensures c.Plus(Zero()) == c && Zero().Plus(c) == c
  {
    assert c == Counts(c.allowed, c.deniedRate, c.deniedQuota);
  }

  // ----- Object names -------------------------------------------------------------------------------

  function DayCompact(day: string): (r: string)
    ensures '-' !in r
  {
    if day == "" then "" else DayCompact(day[..|day| - 1]) + (if day[|day| - 1] != '-' then [day[|day| - 1]] else "")
  }

  method CompactDay(day: string) returns (out: string)
    ensures out == DayCompact(day)
  {
    out := "";
    for i := 0 to |day|
      invariant out == DayCompact(day[..i])
    {
      assert day[..i + 1][..i] == day[..i];
      if day[i] != '-' { out := out + [day[i]]; }
    }
    assert day[..|day|] == day;
  }

  function RollupName(prefix: string, day: string): string { "rollup-" + prefix + "-" + DayCompact(day) }

  /** A date's compact form is its eight digits. */
  lemma CompactDate(day: string)
    requires Calendar.DayShape(day)
    ensures DayCompact(day) == day[..4] + (day[5..7] + day[8..])
  {
    var y, m, d := day[..4], day[5..7], day[8..];
    assert day == y + (['-'] + (m + (['-'] + d)));
    CompactPart(y, m + (['-'] + d));
    CompactPart(m, d);
    CompactDigits(d);
  }

  lemma CompactPart(digits: string, rest: string)
    requires Calendar.AllDigits(digits)
    ensures DayCompact(digits + (['-'] + rest)) == digits + DayCompact(rest)
  {
    CompactConcat(digits, ['-'] + rest);
    CompactConcat(['-'], rest);
    CompactDigits(digits);
    CompactDash();
  }

  lemma CompactDash()
    ensures forall rest :: DayCompact(['-']) + rest == rest
  {
    assert ['-'][..0] == [];
    assert DayCompact(['-']) == [];
  }

  lemma {:induction false} CompactConcat(a: string, b: string)
    ensures DayCompact(a + b) == DayCompact(a) + DayCompact(b)
  {
    if b == "" {
      assert a + b == a;
    } else {
      CompactConcat(a, b[..|b| - 1]);
      assert (a + b)[..|a + b| - 1] == a + b[..|b| - 1];
    }
  }

  lemma {:induction false} CompactDigits(s: string)
    requires Calendar.AllDigits(s)
    ensures DayCompact(s) == s
  {
    if s != "" {
      CompactDigits(s[..|s| - 1]);
      assert s == s[..|s| - 1] + [s[|s| - 1]];
    }
  }

  lemma CompactInjective(day: string, day': string)
    requires Calendar.DayShape(day) && Calendar.DayShape(day') && DayCompact(day) == DayCompact(day')
    ensures day == day'
  {
    CompactDate(day);
    CompactDate(day');
    var c := DayCompact(day);
    assert day[..4] == c[..4] == day'[..4] && day[5..7] == c[4..6] == day'[5..7] && day[8..] == c[6..] == day'[8..];
    assert day == day[..4] + "-" + day[5..7] + "-" + day[8..];
    assert day' == day'[..4] + "-" + day'[5..7] + "-" + day'[8..];
  }

  /** A name can be split again at its last dash. */
  lemma NameSplits(prefix: string, day: string)
    requires Calendar.DayShape(day)
    ensures var name := RollupName(prefix, day);
            |name| >= 16 && name[|name| - 8..] == DayCompact(day) && name[7..|name| - 9] == prefix
  {
    CompactDate(day);
    var name := RollupName(prefix, day);
    assert |DayCompact(day)| == 8 && |name| == |prefix| + 16;
  }

  /** No two keys of a namespace share a rollup object, whatever their prefixes. */
  lemma {:induction false} RollupNameInjective(prefix: string, day: string, prefix': string, day': string)
    requires Calendar.DayShape(day) && Calendar.DayShape(day')
    requires RollupName(prefix, day) == RollupName(prefix', day')
    ensures prefix == prefix' && day == day'
  {
    NameSplits(prefix, day);
    NameSplits(prefix', day');
    CompactInjective(day, day');
  }
}
