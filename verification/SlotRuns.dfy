/** Any sequence of requests that enter a cluster, finish, and clusters that are forgotten, against a
    definition of the limit that knows nothing of counters. */
module SlotRuns {
  import opened Wrappers
  import opened Slots

  /** Release gives back the slot of the request that entered as number `index`. */
  datatype Op = Enter(subdomain: string) | Release(index: nat) | Forget(subdomain: string)

  // ----- The definition -----------------------------------------------------------------------------

  /** How many of the requests so far are live in this cluster; of each request its cluster is kept
      while it is live. */
  function Occupied(live: seq<Option<string>>, subdomain: string): nat {
    if live == [] then 0
    else Occupied(live[..|live| - 1], subdomain) + if live[|live| - 1] == Some(subdomain) then 1 else 0
  }

  /** A request enters if fewer than the limit are live in its cluster; forgetting changes nothing. */
  function Apply(live: seq<Option<string>>, limit: int, op: Op): seq<Option<string>> {
    match op
    case Enter(subdomain) => live + [if limit <= 0 || Occupied(live, subdomain) < limit then Some(subdomain) else None]
    case Release(i) => if i < |live| then live[i := None] else live
    case Forget(_) => live
  }

  function Run(limit: int, ops: seq<Op>): seq<Option<string>> {
    if ops == [] then [] else Apply(Run(limit, ops[..|ops| - 1]), limit, ops[|ops| - 1])
  }

  lemma OccupiedSnoc(live: seq<Option<string>>, x: Option<string>, subdomain: string)
    ensures Occupied(live + [x], subdomain) == Occupied(live, subdomain) + if x == Some(subdomain) then 1 else 0
  {
    assert (live + [x])[..|live|] == live;
  }

  lemma {:induction false} OccupiedRelease(live: seq<Option<string>>, i: nat, subdomain: string)
    requires i < |live|
    ensures Occupied(live[i := None], subdomain) == Occupied(live, subdomain) - if live[i] == Some(subdomain) then 1 else 0
  {
    var n := |live| - 1;
    if i == n {
      assert live[i := None][..n] == live[..n];
    } else {
      OccupiedRelease(live[..n], i, subdomain);
      assert live[i := None][..n] == live[..n][i := None];
    }
  }

  /** However requests enter and finish and clusters are forgotten, none ever has more live requests
      than the limit. */
  lemma {:induction false} LiveWithinLimit(limit: int, ops: seq<Op>, subdomain: string)
    requires limit > 0
    ensures Occupied(Run(limit, ops), subdomain) <= limit
  {
    if ops != [] {
      var before := Run(limit, ops[..|ops| - 1]);
      LiveWithinLimit(limit, ops[..|ops| - 1], subdomain);
      match ops[|ops| - 1]
      case Enter(s) =>
        OccupiedSnoc(before, if Occupied(before, s) < limit then Some(s) else None, subdomain);
      case Release(i) =>
        if i < |before| { OccupiedRelease(before, i, subdomain); }
      case Forget(_) =>
    }
  }

  // ----- The gate meets it --------------------------------------------------------------------------

  /** The slots of the live requests, each with the cluster it is for. */
  predicate Given(slots: seq<Option<Slot>>, live: seq<Option<string>>) {
    && |slots| == |live|
    && forall i :: 0 <= i < |slots| ==>
         (slots[i].Some? <==> live[i].Some?) && (slots[i].Some? ==> slots[i].value.subdomain == live[i].value)
  }

  /** The gate's record is that of the live requests: their slots, all different, and as many in each
      cluster as should be. */
  ghost predicate Kept(limit: int, held: set<Slot>, slots: seq<Option<Slot>>, live: seq<Option<string>>) {
    && (forall i :: 0 <= i < |slots| && slots[i].Some? ==>
          if limit > 0 then slots[i].value in held else slots[i].value.counter == null)
    && (limit > 0 ==> AllDifferent(slots) && forall s :: |For(held, s)| == Occupied(live, s))
  }

  predicate AllDifferent(slots: seq<Option<Slot>>) {
    forall i, j :: 0 <= i < j < |slots| && slots[i].Some? && slots[j].Some? ==> slots[i].value != slots[j].value
  }

  lemma KeptEntered(gate: Gate, held: set<Slot>, slots: seq<Option<Slot>>, live: seq<Option<string>>, slot: Slot)
    requires gate.limit > 0 && Given(slots, live) && Kept(gate.limit, held, slots, live) && slot !in held
    ensures Kept(gate.limit, held + {slot}, slots + [Some(slot)], live + [Some(slot.subdomain)])
  {
    gate.OneMore(held, slot);
    forall s { OccupiedSnoc(live, Some(slot.subdomain), s); }
  }

  lemma KeptRefused(limit: int, held: set<Slot>, slots: seq<Option<Slot>>, live: seq<Option<string>>)
    requires Given(slots, live) && Kept(limit, held, slots, live)
    ensures Kept(limit, held, slots + [None], live + [None])
  {
    forall s { OccupiedSnoc(live, None, s); }
  }

  method ServeEnter(gate: Gate, slots: seq<Option<Slot>>, subdomain: string, ghost live: seq<Option<string>>)
    returns (after: seq<Option<Slot>>)
    requires gate.Valid() && Given(slots, live) && Kept(gate.limit, gate.held, slots, live)
    modifies gate, gate.inFlight.Values
    ensures gate.Valid() && fresh(gate.inFlight.Values - old(gate.inFlight.Values))
    ensures var live' := Apply(live, gate.limit, Enter(subdomain));
            Given(after, live') && Kept(gate.limit, gate.held, after, live')
  {
    ghost var held := gate.held;
    assert gate.limit > 0 ==> |For(held, subdomain)| == Occupied(live, subdomain);
    var slot := gate.EnterCluster(subdomain);
    after := slots + [slot];
    if slot.None? {
      KeptRefused(gate.limit, held, slots, live);
    } else if gate.limit > 0 {
      KeptEntered(gate, held, slots, live, slot.value);
    }
  }

  method ServeRelease(gate: Gate, slots: seq<Option<Slot>>, i: nat, ghost live: seq<Option<string>>)
    returns (after: seq<Option<Slot>>)
    requires gate.Valid() && Given(slots, live) && Kept(gate.limit, gate.held, slots, live)
    modifies gate, gate.inFlight.Values
    ensures gate.Valid() && gate.inFlight == old(gate.inFlight)
    ensures var live' := Apply(live, gate.limit, Release(i));
            Given(after, live') && Kept(gate.limit, gate.held, after, live')
  {
    if i >= |slots| || slots[i].None? {
      assert i < |live| ==> live[i := None] == live;
      return slots;
    }
    var slot := slots[i].value;
    gate.Release(slot);
    after := slots[i := None];
    if gate.limit > 0 {
      gate.OneMore(gate.held, slot);
      assert gate.held + {slot} == old(gate.held);
    }
    forall s { OccupiedRelease(live, i, s); }
  }

  /** Serves the calls one after the other: exactly those requests enter, and stay live, that the
      definition lets in, whatever counters have been forgotten and made again. */
  method Serve(limit: int, ops: seq<Op>) returns (slots: seq<Option<Slot>>)
    ensures Given(slots, Run(limit, ops))
  {
    var gate := new Gate(limit);
    slots := [];
    for n := 0 to |ops|
      invariant gate.Valid() && gate.limit == limit && fresh(gate) && fresh(gate.inFlight.Values)
      invariant Given(slots, Run(limit, ops[..n])) && Kept(gate.limit, gate.held, slots, Run(limit, ops[..n]))
    {
      assert ops[..n + 1][..n] == ops[..n];
      ghost var live := Run(limit, ops[..n]);
      match ops[n] {
        case Enter(subdomain) => slots := ServeEnter(gate, slots, subdomain, live);
        case Release(i) => slots := ServeRelease(gate, slots, i, live);
        case Forget(subdomain) => gate.ForgetCluster(subdomain);
      }
    }
    assert ops[..|ops|] == ops;
  }
}
