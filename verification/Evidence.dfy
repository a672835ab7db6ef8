/** The log-reading allowance of one tick and the debt it hands to the next:
    console-api/controller/readonly_volume.go, evidenceBudget, admit, isOwed and carry. */
module Evidence {

  /** A workload asks to have its logs read, before the tick's deadline or after it. */
  datatype Ask<K> = Ask(key: K, inTime: bool)

  /** A tick's allowance: the debt carried in, oldest first, who was admitted, who is newly owed, and
      whether the one late admission is used up. */
  datatype Ledger<K> = Ledger(owed: seq<K>, paid: set<K>, added: seq<K>, overran: bool)

  predicate Admits<K(==)>(l: Ledger<K>, a: Ask<K>) { a.inTime || (!l.overran && l.owed != [] && l.owed[0] == a.key) }

  function After<K(==)>(l: Ledger<K>, a: Ask<K>): Ledger<K> {
    if a.inTime then l.(paid := l.paid + {a.key})
    else if Admits(l, a) then l.(paid := l.paid + {a.key}, overran := true)
    else if a.key in l.owed then l
    else l.(added := l.added + [a.key])
  }

  function Unpaid<K(==)>(owed: seq<K>, paid: set<K>): seq<K> {
    if owed == [] then []
    else
      var rest := Unpaid(owed[..|owed| - 1], paid);
      if owed[|owed| - 1] in paid then rest else rest + [owed[|owed| - 1]]
  }

  function Carried<K(==)>(l: Ledger<K>): seq<K> { Unpaid(l.owed, l.paid) + l.added }

  class EvidenceBudget {
    const deadline: int
    const owed: seq<string>
    var paid: set<string>
    var added: seq<string>
    var overran: bool

    constructor (deadline: int, owed: seq<string>)
      ensures this.deadline == deadline && Contents() == Ledger(owed, {}, [], false)
    {
      this.deadline, this.owed, paid, added, overran := deadline, owed, {}, [], false;
    }

    function Contents(): Ledger<string>
      reads this
    {
      Ledger(owed, paid, added, overran)
    }

    /** Whether the workload's logs may be read now: before the deadline always, and after it only
        for the head of the debt and only once. Whoever is refused is owed. */
    method Admit(key: string, now: int) returns (ok: bool)
      modifies this
      ensures ok == Admits(old(Contents()), Ask(key, now < deadline))
      ensures Contents() == After(old(Contents()), Ask(key, now < deadline))
    {
      if now < deadline {
        paid := paid + {key};
        return true;
      }
      if !overran && |owed| > 0 && owed[0] == key {
        paid, overran := paid + {key}, true;
        return true;
      }
      var known := IsOwed(key);
      if !known { added := added + [key]; }
      return false;
    }

    method IsOwed(key: string) returns (found: bool)
      ensures found == (key in owed)
    {
      for i := 0 to |owed|
        invariant key !in owed[..i]
      {
        if owed[i] == key { return true; }
      }
      found := false;
    }

    method Carry() returns (next: seq<string>)
      ensures next == Carried(Contents())
    {
      next := [];
      for i := 0 to |owed|
        invariant next == Unpaid(owed[..i], paid)
      {
        assert owed[..i + 1][..i] == owed[..i];
        if owed[i] !in paid { next := next + [owed[i]]; }
      }
      assert owed[..|owed|] == owed;
      next := next + added;
    }
  }

  // ----- One tick -----------------------------------------------------------------------------------

  function Serve<K(==)>(owed: seq<K>, asks: seq<Ask<K>>): Ledger<K> {
    if asks == [] then Ledger(owed, {}, [], false)
    else After(Serve(owed, asks[..|asks| - 1]), asks[|asks| - 1])
  }

  predicate Admitted<K(==)>(owed: seq<K>, asks: seq<Ask<K>>, i: nat)
    requires i < |asks|
  {
    Admits(Serve(owed, asks[..i]), asks[i])
  }

  function Next<K(==)>(owed: seq<K>, asks: seq<Ask<K>>): seq<K> { Carried(Serve(owed, asks)) }

  /** Each workload asks at most once, as one observation per workload and tick makes it. */
  predicate AskOnce<K(==)>(asks: seq<Ask<K>>) { forall i, j :: 0 <= i < j < |asks| ==> asks[i].key != asks[j].key }

  predicate Distinct<K(==)>(keys: seq<K>) { forall i, j :: 0 <= i < j < |keys| ==> keys[i] != keys[j] }

  predicate Asks<K(==)>(asks: seq<Ask<K>>, k: K) { exists i :: 0 <= i < |asks| && asks[i].key == k }

  /** What an ask does is still there at the end of the tick. */
  lemma {:induction false} AskKept<K>(owed: seq<K>, asks: seq<Ask<K>>, i: nat)
    requires i < |asks|
    ensures var l := Serve(owed, asks);
            && l.owed == owed
            && (Admitted(owed, asks, i) ==> asks[i].key in l.paid && (!asks[i].inTime ==> l.overran))
            && (!Admitted(owed, asks, i) ==> asks[i].key in owed || asks[i].key in l.added)
  {
    var n := |asks| - 1;
    if i < n {
      AskKept(owed, asks[..n], i);
      assert asks[..n][..i] == asks[..i];
    } else if n > 0 {
      AskKept(owed, asks[..n], 0);
    }
  }

  /** Who is paid was admitted. */
  lemma {:induction false} PaidAsked<K>(owed: seq<K>, asks: seq<Ask<K>>, k: K) returns (i: nat)
    requires k in Serve(owed, asks).paid
    ensures i < |asks| && asks[i].key == k && Admitted(owed, asks, i)
  {
    var n := |asks| - 1;
    if k in Serve(owed, asks[..n]).paid {
      i := PaidAsked(owed, asks[..n], k);
      assert asks[..n][..i] == asks[..i];
    } else {
      i := n;
    }
  }

  /** Who is newly owed asked, was refused and owed nothing. */
  lemma {:induction false} AddedAsked<K>(owed: seq<K>, asks: seq<Ask<K>>, k: K) returns (i: nat)
    requires k in Serve(owed, asks).added
    ensures i < |asks| && asks[i].key == k && !Admitted(owed, asks, i) && k !in owed
  {
    var n := |asks| - 1;
    if n > 0 { AskKept(owed, asks[..n], 0); }
    if k in Serve(owed, asks[..n]).added {
      i := AddedAsked(owed, asks[..n], k);
      assert asks[..n][..i] == asks[..i];
    } else {
      i := n;
    }
  }

  /** At most one admission of a tick is past the deadline. */
  lemma {:induction false} OneOverrun<K>(owed: seq<K>, asks: seq<Ask<K>>, i: nat, j: nat)
    requires i < j < |asks| && !asks[i].inTime && !asks[j].inTime
    ensures !(Admitted(owed, asks, i) && Admitted(owed, asks, j))
  {
    AskKept(owed, asks[..j], i);
    assert asks[..j][..i] == asks[..i];
  }

  lemma {:induction false} UnpaidFacts<K>(owed: seq<K>, paid: set<K>)
    requires Distinct(owed)
    ensures Distinct(Unpaid(owed, paid)) && forall k :: k in Unpaid(owed, paid) <==> k in owed && k !in paid
  {
    if owed != [] { UnpaidFacts(owed[..|owed| - 1], paid); }
  }

  lemma {:induction false} AddedDistinct<K>(owed: seq<K>, asks: seq<Ask<K>>)
    requires AskOnce(asks)
    ensures Distinct(Serve(owed, asks).added)
  {
    if asks != [] {
      var n := |asks| - 1;
      AddedDistinct(owed, asks[..n]);
      var before := Serve(owed, asks[..n]);
      if asks[n].key in before.added {
        var i := AddedAsked(owed, asks[..n], asks[n].key);
        assert false;
      }
    }
  }

  /** The debt handed on holds nobody twice: it is what is still owed, in order, and then exactly those
      who were refused for the first time. */
  lemma {:induction false} DebtDistinct<K>(owed: seq<K>, asks: seq<Ask<K>>)
    requires Distinct(owed) && AskOnce(asks)
    ensures Distinct(Next(owed, asks))
  {
    var l := Serve(owed, asks);
    AddedDistinct(owed, asks);
    ServeOwed(owed, asks);
    UnpaidFacts(owed, l.paid);
    var rest := Unpaid(owed, l.paid);
    forall i, j | 0 <= i < |rest| && 0 <= j < |l.added| ensures rest[i] != l.added[j] {
      assert rest[i] in rest;
      var at := AddedAsked(owed, asks, l.added[j]);
    }
  }

  lemma ServeOwed<K>(owed: seq<K>, asks: seq<Ask<K>>)
    ensures Serve(owed, asks).owed == owed
  {
    if asks != [] { AskKept(owed, asks, 0); }
  }

  /** Whoever is refused is owed on the next tick, and whoever is admitted is not. */
  lemma {:induction false} RefusedIsOwed<K>(owed: seq<K>, asks: seq<Ask<K>>, i: nat)
    requires Distinct(owed) && AskOnce(asks) && i < |asks|
    ensures asks[i].key in Next(owed, asks) <==> !Admitted(owed, asks, i)
  {
    var l := Serve(owed, asks);
    var k := asks[i].key;
    AskKept(owed, asks, i);
    UnpaidFacts(owed, l.paid);
    if k in l.paid { var j := PaidAsked(owed, asks, k); assert j == i; }
    if k in l.added { var j := AddedAsked(owed, asks, k); assert j == i; }
  }

  /** Asking twice in a tick would break both: a key owed twice, and a refused one that is forgotten. */
  lemma {:induction false} AskingTwice()
    ensures Next([], [Ask(1, false), Ask(1, false)]) == [1, 1]
    ensures !Admitted([2, 1], [Ask(1, true), Ask(1, false)], 1) && Next([2, 1], [Ask(1, true), Ask(1, false)]) == [2]
  {
    var late := [Ask(1, false), Ask(1, false)];
    assert late[..1] == [Ask(1, false)] && late[..1][..0] == [];
    assert Serve([], late[..1]) == Ledger([], {}, [1], false);
    assert Serve([], late) == Ledger([], {}, [1, 1], false);
    var mixed := [Ask(1, true), Ask(1, false)];
    assert mixed[..1] == [Ask(1, true)] && mixed[..1][..0] == [];
    assert Serve([2, 1], mixed[..1]) == Ledger([2, 1], {1}, [], false);
    assert Serve([2, 1], mixed) == Ledger([2, 1], {1}, [], false);
    assert [2, 1][..1] == [2] && [2][..0] == [];
    assert Unpaid([2], {1}) == [2];
    assert Unpaid([2, 1], {1}) == [2];
  }

  // ----- Ticks in a row -----------------------------------------------------------------------------

  lemma {:induction false} OverranHead<K>(owed: seq<K>, asks: seq<Ask<K>>) returns (i: nat)
    requires Serve(owed, asks).overran
    ensures i < |asks| && owed != [] && asks[i].key == owed[0]
  {
    var n := |asks| - 1;
    ServeOwed(owed, asks[..n]);
    if Serve(owed, asks[..n]).overran { i := OverranHead(owed, asks[..n]); } else { i := n; }
  }

  /** The head of the debt is admitted whenever it asks. */
  lemma HeadAdmitted<K>(owed: seq<K>, asks: seq<Ask<K>>, i: nat)
    requires AskOnce(asks) && owed != [] && i < |asks| && asks[i].key == owed[0]
    ensures Admitted(owed, asks, i)
  {
    ServeOwed(owed, asks[..i]);
    if Serve(owed, asks[..i]).overran { var j := OverranHead(owed, asks[..i]); assert false; }
  }

  /** On a tick wholly past the deadline somebody is admitted exactly when the head of the debt asks. */
  lemma {:induction false} LateTick<K>(owed: seq<K>, asks: seq<Ask<K>>)
    requires AskOnce(asks) && forall i :: 0 <= i < |asks| ==> !asks[i].inTime
    ensures (exists i :: 0 <= i < |asks| && Admitted(owed, asks, i)) <==> owed != [] && Asks(asks, owed[0])
  {
    if i :| 0 <= i < |asks| && Admitted(owed, asks, i) { ServeOwed(owed, asks[..i]); }
    if owed != [] && Asks(asks, owed[0]) {
      var i :| 0 <= i < |asks| && asks[i].key == owed[0];
      HeadAdmitted(owed, asks, i);
    }
  }

  lemma {:induction false} UnpaidAt<K>(owed: seq<K>, paid: set<K>, p: nat)
    requires p < |owed| && owed[p] !in paid
    ensures |Unpaid(owed[..p], paid)| < |Unpaid(owed, paid)|
    ensures Unpaid(owed, paid)[|Unpaid(owed[..p], paid)|] == owed[p]
  {
    var n := |owed| - 1;
    if p < n {
      UnpaidAt(owed[..n], paid, p);
      assert owed[..n][..p] == owed[..p];
    }
  }

  lemma {:induction false} UnpaidShorter<K>(owed: seq<K>, paid: set<K>)
    ensures |Unpaid(owed, paid)| <= |owed|
    ensures owed != [] && owed[0] in paid ==> |Unpaid(owed, paid)| < |owed|
  {
    if owed != [] { UnpaidShorter(owed[..|owed| - 1], paid); }
  }

  /** Everybody owed asks, on every tick, and nobody twice. */
  predicate Attended<K(==)>(owed: seq<K>, ticks: seq<seq<Ask<K>>>)
    decreases |ticks|
  {
    ticks != [] ==>
      && AskOnce(ticks[0]) && (forall i :: 0 <= i < |owed| ==> Asks(ticks[0], owed[i]))
      && Attended(Next(owed, ticks[0]), ticks[1..])
  }

  predicate AdmittedNow<K(==)>(owed: seq<K>, asks: seq<Ask<K>>, k: K) {
    exists i :: 0 <= i < |asks| && asks[i].key == k && Admitted(owed, asks, i)
  }

  /** Admitted on one of the first `n` ticks. */
  predicate AdmittedBy<K(==)>(owed: seq<K>, ticks: seq<seq<Ask<K>>>, k: K, n: nat)
    decreases n
  {
    n > 0 && ticks != [] && (AdmittedNow(owed, ticks[0], k) || AdmittedBy(Next(owed, ticks[0]), ticks[1..], k, n - 1))
  }

  /** Nobody at position `p` of the debt waits longer than `p` more ticks. */
  lemma {:induction false} Fair<K>(owed: seq<K>, ticks: seq<seq<Ask<K>>>, p: nat)
    requires Distinct(owed) && p < |owed| && p < |ticks| && Attended(owed, ticks)
    ensures AdmittedBy(owed, ticks, owed[p], p + 1)
    decreases |ticks|
  {
    var asks := ticks[0];
    var k := owed[p];
    assert Asks(asks, owed[0]) && Asks(asks, k);
    var head :| 0 <= head < |asks| && asks[head].key == owed[0];
    HeadAdmitted(owed, asks, head);
    AskKept(owed, asks, head);
    if !AdmittedNow(owed, asks, k) {
      var l := Serve(owed, asks);
      if k in l.paid { var j := PaidAsked(owed, asks, k); assert false; }
      DebtDistinct(owed, asks);
      UnpaidAt(owed, l.paid, p);
      UnpaidShorter(owed[..p], l.paid);
      var q := |Unpaid(owed[..p], l.paid)|;
      assert Next(owed, asks)[q] == k;
      Fair(Next(owed, asks), ticks[1..], q);
      Longer(Next(owed, asks), ticks[1..], k, q + 1, p);
    }
  }

  lemma {:induction false} Longer<K>(owed: seq<K>, ticks: seq<seq<Ask<K>>>, k: K, n: nat, m: nat)
    requires AdmittedBy(owed, ticks, k, n) && n <= m
    ensures AdmittedBy(owed, ticks, k, m)
    decreases n
  {
    if !AdmittedNow(owed, ticks[0], k) { Longer(Next(owed, ticks[0]), ticks[1..], k, n - 1, m - 1); }
  }

  /** Whoever is refused is admitted within as many of the following ticks as there is debt. */
  lemma {:induction false} RefusedIsServed<K>(owed: seq<K>, ticks: seq<seq<Ask<K>>>, i: nat)
    requires Distinct(owed) && ticks != [] && i < |ticks[0]| && Attended(owed, ticks)
    requires !Admitted(owed, ticks[0], i) && |Next(owed, ticks[0])| < |ticks|
    ensures AdmittedBy(Next(owed, ticks[0]), ticks[1..], ticks[0][i].key, |Next(owed, ticks[0])|)
  {
    var next := Next(owed, ticks[0]);
    RefusedIsOwed(owed, ticks[0], i);
    DebtDistinct(owed, ticks[0]);
    var p :| 0 <= p < |next| && next[p] == ticks[0][i].key;
    Fair(next, ticks[1..], p);
    Longer(next, ticks[1..], next[p], p + 1, |next|);
  }

  /** A debt whose head no longer asks is never paid past the deadline, for nobody drops it. */
  lemma {:induction false} SilentHeadStarves<K>(owed: seq<K>, ticks: seq<seq<Ask<K>>>, k: K, n: nat)
    requires Distinct(owed) && owed != []
    requires forall t :: 0 <= t < |ticks| ==>
               AskOnce(ticks[t]) && !Asks(ticks[t], owed[0])
               && forall i :: 0 <= i < |ticks[t]| ==> !ticks[t][i].inTime
    ensures !AdmittedBy(owed, ticks, k, n)
    decreases |ticks|
  {
    if ticks != [] && n > 0 {
      LateTick(owed, ticks[0]);
      var l := Serve(owed, ticks[0]);
      ServeOwed(owed, ticks[0]);
      if owed[0] in l.paid { var j := PaidAsked(owed, ticks[0], owed[0]); assert false; }
      DebtDistinct(owed, ticks[0]);
      UnpaidAt(owed, l.paid, 0);
      assert owed[..0] == [];
      assert Next(owed, ticks[0])[0] == owed[0];
      SilentHeadStarves(Next(owed, ticks[0]), ticks[1..], k, n - 1);
    }
  }
}
