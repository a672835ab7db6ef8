/** Any sequence of uses of the proxy cache, against a definition of least-recently-used that knows
    nothing of lists. */
module CacheRuns {
  import opened Wrappers
  import opened ProxyCache

  datatype Op = Get(key: string) | Add(key: string, proxy: int)

  /** The cache's contents and the proxies closed so far, as Cache.Get and Cache.Add change them. */
  datatype State = State(entries: seq<Entry>, closed: seq<int>)

  function Apply(s: State, cap: nat, op: Op): State {
    match op
    case Get(key) => if Holds(s.entries, key) then s.(entries := Touched(s.entries, key)) else s
    case Add(key, proxy) =>
      if Holds(s.entries, key) then State(Touched(s.entries, key), s.closed + [proxy])
      else
        var longer := [Entry(key, proxy)] + s.entries;
        State(Take(longer, cap), if |longer| > cap then s.closed + [longer[|longer| - 1].proxy] else s.closed)
  }

  function Run(cap: nat, ops: seq<Op>): State {
    if ops == [] then State([], []) else Apply(Run(cap, ops[..|ops| - 1]), cap, ops[|ops| - 1])
  }

  // ----- The definition -----------------------------------------------------------------------------

  /** The distinct keys of a sequence of uses, the one used last first. */
  function Recency(uses: seq<string>): seq<string> {
    if uses == [] then []
    else [uses[|uses| - 1]] + Drop(Recency(uses[..|uses| - 1]), uses[|uses| - 1])
  }

  /** The keys a cache of this capacity should hold. */
  function Held(cap: nat, ops: seq<Op>): seq<string> { Take(Recency(Uses(cap, ops)), cap) }

  /** An add always uses its key, and a get uses it if it should be held. */
  function Uses(cap: nat, ops: seq<Op>): seq<string> {
    if ops == [] then []
    else
      var before := Uses(cap, ops[..|ops| - 1]);
      var op := ops[|ops| - 1];
      if op.Get? && op.key !in Take(Recency(before), cap) then before else before + [op.key]
  }

  /** The proxy a held key should have: that of the add by which it last entered. */
  function Entered(cap: nat, ops: seq<Op>, key: string): Option<int> {
    if ops == [] then None
    else
      var before := ops[..|ops| - 1];
      var op := ops[|ops| - 1];
      if op.Add? && op.key == key && key !in Held(cap, before) then Some(op.proxy) else Entered(cap, before, key)
  }

  /** The proxies handed to the cache. */
  function Given(ops: seq<Op>): seq<int> {
    if ops == [] then []
    else
      var before := Given(ops[..|ops| - 1]);
      if ops[|ops| - 1].Add? then before + [ops[|ops| - 1].proxy] else before
  }

  function Proxies(es: seq<Entry>): seq<int> { seq(|es|, i requires 0 <= i < |es| => es[i].proxy) }

  // ----- The proof ----------------------------------------------------------------------------------

  lemma {:induction false} DropFacts<T>(s: seq<T>, x: T)
    ensures x !in Drop(s, x) && (forall y :: y in Drop(s, x) <==> y in s && y != x)
    ensures x !in s ==> Drop(s, x) == s
  {
    if s != [] { DropFacts(s[1..], x); }
  }

  /** Dropping commutes with taking the first `n`, when the one dropped is among them. */
  lemma {:induction false} DropTake<T>(s: seq<T>, n: nat, x: T)
    requires Distinct(s)
    ensures x in Take(s, n) ==> Take(Drop(s, x), n - 1) == Drop(Take(s, n), x)
    ensures x !in Take(s, n) && n > 0 ==> Take(Drop(s, x), n - 1) == Take(s, n - 1)
  {
    if s != [] && n > 0 {
      var rest := s[1..];
      assert Take(s, n) == [s[0]] + Take(rest, n - 1);
      if s[0] == x {
        DropFacts(rest, x);
        DropFacts(Take(rest, n - 1), x);
      } else {
        DropTake(rest, n - 1, x);
        assert Take(s, n)[1..] == Take(rest, n - 1);
        if n > 1 {
          assert Take(Drop(s, x), n - 1) == [s[0]] + Take(Drop(rest, x), n - 2);
          assert Take(s, n - 1) == [s[0]] + Take(rest, n - 2);
        }
      }
    }
  }

  predicate Distinct<T(==)>(s: seq<T>) { forall i, j :: 0 <= i < j < |s| ==> s[i] != s[j] }

  lemma {:induction false} DropDistinct<T>(s: seq<T>, x: T)
    requires Distinct(s)
    ensures Distinct(Drop(s, x))
  {
    if s != [] {
      var tail, rest := s[1..], Drop(s[1..], x);
      DropDistinct(tail, x);
      DropFacts(tail, x);
      forall i | 0 <= i < |tail| ensures tail[i] != s[0] { assert tail[i] == s[i + 1]; }
      forall j | 0 <= j < |rest| ensures rest[j] != s[0] { assert rest[j] in rest; }
    }
  }

  lemma {:induction false} RecencyDistinct(uses: seq<string>)
    ensures Distinct(Recency(uses))
  {
    if uses != [] {
      var before := Recency(uses[..|uses| - 1]);
      RecencyDistinct(uses[..|uses| - 1]);
      DropDistinct(before, uses[|uses| - 1]);
      DropFacts(before, uses[|uses| - 1]);
    }
  }

  lemma {:induction false} DropKeys(es: seq<Entry>, key: string)
    ensures KeysOf(DropKey(es, key)) == Drop(KeysOf(es), key)
  {
    if es != [] {
      DropKeys(es[1..], key);
      assert KeysOf(es)[1..] == KeysOf(es[1..]);
    }
  }

  lemma HoldsKey(es: seq<Entry>, key: string)
    ensures Holds(es, key) <==> key in KeysOf(es)
  {
    if Holds(es, key) {
      var i :| 0 <= i < |es| && es[i].key == key;
      assert KeysOf(es)[i] == key;
    }
  }

  /** A use brings its key to the front of what is held. */
  lemma UseHeld(recent: seq<string>, cap: nat, key: string)
    requires Distinct(recent)
    ensures Take([key] + Drop(recent, key), cap)
            == if key in Take(recent, cap) then [key] + Drop(Take(recent, cap), key) else Take([key] + Take(recent, cap), cap)
  {
    DropTake(recent, cap, key);
    if cap > 0 {
      var all := [key] + Drop(recent, key);
      assert Take(all, cap) == [key] + Take(Drop(recent, key), cap - 1);
      if key !in Take(recent, cap) { assert Take([key] + Take(recent, cap), cap) == [key] + Take(recent, cap - 1); }
    }
  }

  lemma TouchedKeys(es: seq<Entry>, key: string)
    requires Holds(es, key)
    ensures KeysOf(Touched(es, key)) == [key] + Drop(KeysOf(es), key)
  {
    DropKeys(es, key);
    assert KeysOf(Touched(es, key)) == [key] + KeysOf(DropKey(es, key));
  }

  lemma PushedKeys(e: Entry, es: seq<Entry>, cap: nat)
    ensures KeysOf(Take([e] + es, cap)) == Take([e.key] + KeysOf(es), cap)
  {
    assert KeysOf([e] + es) == [e.key] + KeysOf(es);
    assert KeysOf(Take([e] + es, cap)) == Take(KeysOf([e] + es), cap);
  }

  lemma StepKeys(s: State, cap: nat, recent: seq<string>, op: Op)
    requires Distinct(recent) && KeysOf(s.entries) == Take(recent, cap)
    ensures KeysOf(Apply(s, cap, op).entries)
            == if op.Get? && op.key !in Take(recent, cap) then Take(recent, cap) else Take([op.key] + Drop(recent, op.key), cap)
  {
    HoldsKey(s.entries, op.key);
    UseHeld(recent, cap, op.key);
    if Holds(s.entries, op.key) {
      TouchedKeys(s.entries, op.key);
    } else if op.Add? {
      PushedKeys(Entry(op.key, op.proxy), s.entries, cap);
    }
  }

  /** After any sequence of uses the cache holds exactly the most recently used distinct keys, as many
      as fit, in the order of their last use. */
  lemma {:induction false} HoldsMostRecent(cap: nat, ops: seq<Op>)
    ensures KeysOf(Run(cap, ops).entries) == Held(cap, ops)
  {
    if ops != [] {
      var before := ops[..|ops| - 1];
      var op := ops[|ops| - 1];
      var uses := Uses(cap, before);
      HoldsMostRecent(cap, before);
      RecencyDistinct(uses);
      StepKeys(Run(cap, before), cap, Recency(uses), op);
      assert (uses + [op.key])[..|uses|] == uses;
    }
  }

  lemma {:induction false} DropProxy(es: seq<Entry>, key: string, other: string)
    requires Holds(es, other) && other != key
    ensures Holds(DropKey(es, key), other) && ProxyOf(DropKey(es, key), other) == ProxyOf(es, other)
  {
    if es[0].key == other {
      assert DropKey(es, key)[0] == es[0];
    } else {
      var i :| 0 <= i < |es| && es[i].key == other;
      assert es[1..][i - 1] == es[i];
      DropProxy(es[1..], key, other);
      if es[0].key != key {
        var rest := DropKey(es[1..], key);
        assert DropKey(es, key) == [es[0]] + rest && DropKey(es, key)[1..] == rest;
        var j :| 0 <= j < |rest| && rest[j].key == other;
        assert DropKey(es, key)[j + 1] == rest[j];
      }
    }
  }

  lemma {:induction false} TakeProxy(es: seq<Entry>, n: nat, key: string)
    requires Holds(Take(es, n), key)
    ensures Holds(es, key) && ProxyOf(Take(es, n), key) == ProxyOf(es, key)
  {
    var part := Take(es, n);
    var i :| 0 <= i < |part| && part[i].key == key;
    assert es[i] == part[i];
    if es[0].key != key {
      assert part[1..] == Take(es[1..], n - 1);
      assert part[1..][i - 1] == part[i];
      TakeProxy(es[1..], n - 1, key);
    }
  }

  lemma ConsProxy(e: Entry, es: seq<Entry>, key: string)
    requires Holds([e] + es, key) && key != e.key
    ensures Holds(es, key) && ProxyOf([e] + es, key) == ProxyOf(es, key)
  {
    var all := [e] + es;
    var i :| 0 <= i < |all| && all[i].key == key;
    assert es[i - 1] == all[i];
    assert all[1..] == es;
  }

  /** A key that stays held keeps its proxy, and one that enters has the proxy it was added with. */
  lemma StepProxy(s: State, cap: nat, op: Op, key: string)
    requires Holds(Apply(s, cap, op).entries, key)
    ensures if Holds(s.entries, key) then ProxyOf(Apply(s, cap, op).entries, key) == ProxyOf(s.entries, key)
            else op.Add? && op.key == key && ProxyOf(Apply(s, cap, op).entries, key) == op.proxy
  {
    var after := Apply(s, cap, op).entries;
    if Holds(s.entries, op.key) {
      if key != op.key {
        ConsProxy(Entry(op.key, ProxyOf(s.entries, op.key)), DropKey(s.entries, op.key), key);
        HoldsKey(DropKey(s.entries, op.key), key);
        HoldsKey(s.entries, key);
        DropKeys(s.entries, op.key);
        DropFacts(KeysOf(s.entries), op.key);
        DropProxy(s.entries, op.key, key);
      }
    } else if op.Add? {
      var longer := [Entry(op.key, op.proxy)] + s.entries;
      TakeProxy(longer, cap, key);
      if key != op.key { ConsProxy(longer[0], s.entries, key); }
    }
  }

  /** A hit returns the proxy its key entered with. */
  lemma {:induction false} HitReturnsEntered(cap: nat, ops: seq<Op>, key: string)
    requires Holds(Run(cap, ops).entries, key)
    ensures Entered(cap, ops, key) == Some(ProxyOf(Run(cap, ops).entries, key))
  {
    var before := ops[..|ops| - 1];
    var s := Run(cap, before);
    HoldsMostRecent(cap, before);
    HoldsKey(s.entries, key);
    StepProxy(s, cap, ops[|ops| - 1], key);
    if Holds(s.entries, key) { HitReturnsEntered(cap, before, key); }
  }

  lemma ProxiesCons(e: Entry, es: seq<Entry>)
    ensures multiset(Proxies([e] + es)) == multiset{e.proxy} + multiset(Proxies(es))
  {
    assert Proxies([e] + es) == [e.proxy] + Proxies(es);
  }

  lemma ProxiesSnoc(es: seq<Entry>, e: Entry)
    ensures multiset(Proxies(es + [e])) == multiset(Proxies(es)) + multiset{e.proxy}
  {
    assert Proxies(es + [e]) == Proxies(es) + [e.proxy];
  }

  lemma {:induction false} DropProxies(es: seq<Entry>, key: string)
    requires Unique(es) && Holds(es, key)
    ensures multiset(Proxies(DropKey(es, key))) + multiset{ProxyOf(es, key)} == multiset(Proxies(es))
  {
    var rest := es[1..];
    ProxiesCons(es[0], rest);
    assert es == [es[0]] + rest;
    if es[0].key == key {
      forall i | 0 <= i < |rest| ensures rest[i].key != key { assert es[i + 1] == rest[i]; }
      DropAbsent(rest, key);
    } else {
      var i :| 0 <= i < |es| && es[i].key == key;
      assert rest[i - 1] == es[i];
      DropProxies(rest, key);
      ProxiesCons(es[0], DropKey(rest, key));
    }
  }

  /** What the cache has been given and not lost. */
  function Kept(s: State): multiset<int> { multiset(Proxies(s.entries)) + multiset(s.closed) }

  /** What of a longer list is held and what is closed for lack of room. */
  lemma PushConserves(e: Entry, es: seq<Entry>, closed: seq<int>, cap: nat)
    requires |es| <= cap
    ensures var longer := [e] + es;
            multiset(Proxies(Take(longer, cap)))
            + multiset(if |longer| > cap then closed + [longer[|longer| - 1].proxy] else closed)
            == multiset(Proxies(es)) + multiset(closed) + multiset{e.proxy}
  {
    var longer := [e] + es;
    ProxiesCons(e, es);
    if |longer| > cap {
      var first, last := longer[..cap], longer[cap];
      assert longer == first + [last] && Take(longer, cap) == first && longer[|longer| - 1] == last;
      ProxiesSnoc(first, last);
      assert multiset(closed + [last.proxy]) == multiset(closed) + multiset{last.proxy};
      assert multiset(Proxies(longer)) == multiset(Proxies(first)) + multiset{last.proxy};
      calc {
        multiset(Proxies(first)) + multiset(closed + [last.proxy]);
        multiset(Proxies(first)) + multiset{last.proxy} + multiset(closed);
        multiset(Proxies(es)) + multiset{e.proxy} + multiset(closed);
      }
    } else {
      assert Take(longer, cap) == longer;
    }
  }

  lemma TouchConserves(es: seq<Entry>, key: string)
    requires Unique(es) && Holds(es, key)
    ensures multiset(Proxies(Touched(es, key))) == multiset(Proxies(es))
  {
    DropProxies(es, key);
    ProxiesCons(Entry(key, ProxyOf(es, key)), DropKey(es, key));
  }

  lemma StepConserves(s: State, cap: nat, op: Op)
    requires Unique(s.entries) && |s.entries| <= cap
    ensures Kept(Apply(s, cap, op)) == Kept(s) + (if op.Add? then multiset{op.proxy} else multiset{})
  {
    if Holds(s.entries, op.key) {
      TouchConserves(s.entries, op.key);
      if op.Add? { assert multiset(s.closed + [op.proxy]) == multiset(s.closed) + multiset{op.proxy}; }
    } else if op.Add? {
      PushConserves(Entry(op.key, op.proxy), s.entries, s.closed, cap);
    }
  }

  lemma KeysUnique(es: seq<Entry>)
    requires Distinct(KeysOf(es))
    ensures Unique(es)
  {
    forall i, j | 0 <= i < j < |es| ensures es[i].key != es[j].key {
      assert KeysOf(es)[i] != KeysOf(es)[j];
    }
  }

  /** Every proxy ever given to the cache is either held or closed, once. */
  lemma {:induction false} NothingStranded(cap: nat, ops: seq<Op>)
    ensures Kept(Run(cap, ops)) == multiset(Given(ops))
  {
    if ops != [] {
      var before := ops[..|ops| - 1];
      var s := Run(cap, before);
      NothingStranded(cap, before);
      HoldsMostRecent(cap, before);
      RecencyDistinct(Uses(cap, before));
      assert |KeysOf(s.entries)| <= cap;
      KeysUnique(s.entries);
      StepConserves(s, cap, ops[|ops| - 1]);
    }
  }

  // ----- The cache meets it -------------------------------------------------------------------------

  /** What a use should return: the proxy of a key that is held, otherwise the one given, if any. */
  function Answer(cap: nat, before: seq<Op>, op: Op): Option<int> {
    if op.key in Held(cap, before) then Entered(cap, before, op.key) else if op.Add? then Some(op.proxy) else None
  }

  lemma AnswerIs(cap: nat, before: seq<Op>, op: Op)
    ensures var es := Run(cap, before).entries;
            Answer(cap, before, op)
            == if Holds(es, op.key) then Some(ProxyOf(es, op.key)) else if op.Add? then Some(op.proxy) else None
  {
    HoldsMostRecent(cap, before);
    HoldsKey(Run(cap, before).entries, op.key);
    if Holds(Run(cap, before).entries, op.key) { HitReturnsEntered(cap, before, op.key); }
  }

  /** The uses were answered as they should be. */
  predicate Answered(cap: nat, ops: seq<Op>, answers: seq<Option<int>>) {
    |answers| <= |ops| && forall i :: 0 <= i < |answers| ==> answers[i] == Answer(cap, ops[..i], ops[i])
  }

  lemma AnsweredNext(cap: nat, ops: seq<Op>, answers: seq<Option<int>>, answer: Option<int>)
    requires |answers| < |ops| && Answered(cap, ops, answers) && answer == Answer(cap, ops[..|answers|], ops[|answers|])
    ensures Answered(cap, ops, answers + [answer])
  {
  }

  /** One use of a cache that has come this far. */
  method ServeOne(cache: Cache, op: Op, ghost before: seq<Op>) returns (answer: Option<int>)
    requires cache.Valid() && State(cache.Contents(), cache.closed) == Run(cache.cap, before)
    modifies cache
    ensures cache.Valid() && State(cache.Contents(), cache.closed) == Run(cache.cap, before + [op])
    ensures answer == Answer(cache.cap, before, op)
  {
    assert (before + [op])[..|before|] == before;
    AnswerIs(cache.cap, before, op);
    match op {
      case Get(key) => answer := cache.Get(key);
      case Add(key, proxy) =>
        var r := cache.Add(key, proxy);
        answer := Some(r);
    }
  }

  /** The cache serves any uses as the definition says. */
  method Serve(cap: nat, ops: seq<Op>) returns (answers: seq<Option<int>>, s: State)
    ensures |answers| == |ops| && Answered(cap, ops, answers)
    ensures s == Run(cap, ops)
  {
    var cache := new Cache(cap);
    answers := [];
    for n := 0 to |ops|
      invariant cache.Valid() && cache.cap == cap && fresh(cache)
      invariant State(cache.Contents(), cache.closed) == Run(cap, ops[..n])
      invariant |answers| == n && Answered(cap, ops, answers)
    {
      assert ops[..n] + [ops[n]] == ops[..n + 1];
      var answer := ServeOne(cache, ops[n], ops[..n]);
      AnsweredNext(cap, ops, answers, answer);
      answers := answers + [answer];
    }
    assert ops[..|ops|] == ops;
    s := State(cache.Contents(), cache.closed);
  }
}
