/** The per-cluster limit on live requests: gateway/proxy.go, enterCluster and forgetCluster. */
module Slots {
  import opened Wrappers

  class Counter {
    var n: int

    constructor ()
      ensures n == 0
    {
      n := 0;
    }
  }

  /** A slot a live request holds: the counter its release will lower, or none when there is no limit. */
  class Slot {
    const subdomain: string
    const counter: Counter?

    constructor (subdomain: string, counter: Counter?)
      ensures this.subdomain == subdomain && this.counter == counter
    {
      this.subdomain, this.counter := subdomain, counter;
    }
  }

  ghost function For(held: set<Slot>, subdomain: string): set<Slot> {
    set slot | slot in held && slot.subdomain == subdomain
  }

  class Gate {
    const limit: int
    var inFlight: map<string, Counter>
    ghost var held: set<Slot>

    constructor (limit: int)
      ensures Valid() && this.limit == limit && held == {} && inFlight == map[]
    {
      this.limit, inFlight, held := limit, map[], {};
    }

    /** Every live slot's counter is the one installed for its cluster, and that counter counts
        exactly the live slots; clusters do not share counters. */
    ghost predicate Valid()
      reads this, inFlight.Values
    {
      && (forall slot :: slot in held ==>
            slot.counter != null && slot.subdomain in inFlight && inFlight[slot.subdomain] == slot.counter)
      && (forall s :: s in inFlight ==> inFlight[s].n == |For(held, s)| && inFlight[s].n <= limit)
      && (forall s, t :: s in inFlight && t in inFlight && s != t ==> inFlight[s] != inFlight[t])
    }

    /** How many live requests hold a slot of the cluster. */
    ghost function Live(subdomain: string): nat
      reads this
    {
      |For(held, subdomain)|
    }

    /** The cluster's counter, installed if there is none. */
    method Install(subdomain: string) returns (counter: Counter)
      requires Valid() && limit > 0
      modifies this`inFlight
      ensures Valid() && subdomain in inFlight && counter == inFlight[subdomain]
      ensures inFlight == old(inFlight)[subdomain := counter]
      ensures fresh(inFlight.Values - old(inFlight.Values)) && counter.n == Live(subdomain)
    {
      if subdomain !in inFlight {
        var c := new Counter();
        inFlight := inFlight[subdomain := c];
      }
      counter := inFlight[subdomain];
      assert inFlight == old(inFlight)[subdomain := counter];
    }

    /** Takes a slot unless the cluster is at its limit; without a limit there is nothing to count. */
    method EnterCluster(subdomain: string) returns (slot: Option<Slot>)
      requires Valid()
      modifies this, inFlight.Values
      ensures Valid()
      ensures slot.Some? ==> slot.value.subdomain == subdomain
      ensures limit <= 0 ==> slot.Some? && slot.value.counter == null && held == old(held) && inFlight == old(inFlight)
      ensures limit > 0 ==> (slot.Some? <==> old(Live(subdomain)) < limit)
      ensures limit > 0 && slot.Some? ==>
                fresh(slot.value) && slot.value.counter != null
                && held == old(held) + {slot.value} && Live(subdomain) == old(Live(subdomain)) + 1
      ensures slot.None? ==> held == old(held)
      ensures fresh(inFlight.Values - old(inFlight.Values))
    {
      if limit <= 0 {
        var free := new Slot(subdomain, null);
        return Some(free);
      }
      var counter := Install(subdomain);
      if counter.n >= limit { return None; }
      counter.n := counter.n + 1;
      var taken := new Slot(subdomain, counter);
      OneMore(held, taken);
      held := held + {taken};
      return Some(taken);
    }

    lemma OneMore(before: set<Slot>, slot: Slot)
      requires slot !in before
      ensures |For(before + {slot}, slot.subdomain)| == |For(before, slot.subdomain)| + 1
      ensures forall s :: s != slot.subdomain ==> For(before + {slot}, s) == For(before, s)
    {
      assert For(before + {slot}, slot.subdomain) == For(before, slot.subdomain) + {slot};
      forall s | s != slot.subdomain ensures For(before + {slot}, s) == For(before, s) { }
    }

    /** Gives a slot back. */
    method Release(slot: Slot)
      requires Valid() && (slot in held || slot.counter == null)
      modifies this`held, slot.counter
      ensures Valid() && held == old(held) - {slot} && inFlight == old(inFlight)
      ensures slot.counter != null ==> Live(slot.subdomain) == old(Live(slot.subdomain)) - 1
    {
      if slot.counter == null {
        assert slot !in held;
        return;
      }
      OneMore(held - {slot}, slot);
      assert held - {slot} + {slot} == held;
      slot.counter.n := slot.counter.n - 1;
      held := held - {slot};
    }

    /** Removes the cluster's counter unless somebody still holds a slot of it. */
    method ForgetCluster(subdomain: string)
      requires Valid()
      modifies this`inFlight
      ensures Valid() && held == old(held)
      ensures inFlight == if old(Live(subdomain)) == 0 then old(inFlight) - {subdomain} else old(inFlight)
    {
      if subdomain in inFlight && inFlight[subdomain].n == 0 {
        NobodyLive(subdomain);
        inFlight := inFlight - {subdomain};
      } else if subdomain !in inFlight {
        assert inFlight - {subdomain} == inFlight;
      }
    }

    lemma NobodyLive(subdomain: string)
      requires Valid() && subdomain in inFlight && inFlight[subdomain].n == 0
      ensures forall slot :: slot in held ==> slot.subdomain != subdomain
    {
      assert For(held, subdomain) == {};
      assert forall slot :: slot in held && slot.subdomain == subdomain ==> slot in For(held, subdomain);
    }
  }
}
