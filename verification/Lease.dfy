/** The Lease a process holds, its watchdog and its release: console-api/controller_lease.go. Times
    are milliseconds. */
module Lease {
  import opened Wrappers
  import opened LeaseProtocol

  datatype Record = Record(holder: string)

  datatype LockError = NotFound | AlreadyExists | Conflict | Fault

  /** One landed write of the Lease. */
  datatype Entry = Entry(record: Record, ours: bool)

  /** Only other processes have written since. */
  predicate Others(past: seq<Entry>, past': seq<Entry>) {
    past <= past' && forall i :: |past| <= i < |past'| ==> !past'[i].ours
  }

  /** What comes before one of our calls is served: other processes write, then the call may fail
      without taking effect. */
  datatype Turn = Turn(writes: seq<Record>, fault: bool)

  /** The lock client: a write applies only to the version this client last read or wrote. `refusals`
      counts the calls answered with an error. */
  class Lock {
    const identity: string
    var past: seq<Entry>
    var observed: nat
    var script: seq<Turn>
    ghost var refusals: nat

    constructor (identity: string, script: seq<Turn>)
      ensures this.identity == identity && past == [] && observed == 0 && this.script == script
    {
      this.identity, past, observed, this.script := identity, [], 0, script;
      refusals := 0;
    }

    ghost predicate Valid()
      reads this
    {
      observed <= |past|
    }

    /** Lets the others write. */
    method Wait() returns (fault: bool)
      modifies this`past, this`script
      ensures Others(old(past), past)
    {
      fault := false;
      if script != [] {
        var turn := script[0];
        script, fault := script[1..], turn.fault;
        past := past + seq(|turn.writes|, i requires 0 <= i < |turn.writes| => Entry(turn.writes[i], false));
      }
    }

    method Get() returns (r: Result<Record, LockError>)
      requires Valid()
      modifies this
      ensures Valid() && Others(old(past), past)
      ensures r.Ok? ==> 0 < observed == |past| && r.value == past[observed - 1].record
      ensures refusals == old(refusals) + if r.Err? then 1 else 0
    {
      var fault := Wait();
      if fault { refusals := refusals + 1; return Err(Fault); }
      if past == [] { refusals := refusals + 1; return Err(NotFound); }
      observed := |past|;
      return Ok(past[observed - 1].record);
    }

    /** Writes a Lease that does not exist yet. */
    method Create(record: Record) returns (r: Result<nat, LockError>)
      requires Valid()
      modifies this
      ensures Valid()
      ensures r.Ok? ==> past == [Entry(record, true)]
      ensures r.Err? ==> Others(old(past), past)
      ensures refusals == old(refusals) + if r.Err? then 1 else 0
    {
      var fault := Wait();
      if fault { refusals := refusals + 1; return Err(Fault); }
      if past != [] { refusals := refusals + 1; return Err(AlreadyExists); }
      past := [Entry(record, true)];
      observed := 1;
      return Ok(1);
    }

    /** Replaces the Lease if it is still the one this client saw. */
    method Update(record: Record) returns (r: Result<nat, LockError>)
      requires Valid()
      modifies this
      ensures Valid()
      ensures r.Ok? ==> past == old(past) + [Entry(record, true)] && old(observed) == |old(past)|
      ensures r.Err? ==> Others(old(past), past)
      ensures refusals == old(refusals) + if r.Err? then 1 else 0
    {
      var fault := Wait();
      if fault { refusals := refusals + 1; return Err(Fault); }
      if |past| != observed { refusals := refusals + 1; return Err(Conflict); }
      past := past + [Entry(record, true)];
      observed := |past|;
      return Ok(|past|);
    }
  }

  class HeldLease {
    const lock: Lock
    var renewed: int

    constructor (lock: Lock)
      ensures this.lock == lock
    {
      this.lock, renewed := lock, 0;
    }

    /** Takes a Lease nobody has created. */
    method Create(record: Record, sent: int) returns (r: Result<nat, LockError>)
      requires lock.Valid()
      modifies this, lock
      ensures lock.Valid()
      ensures renewed == Noted(old(renewed), lock.identity, record.holder, sent, r.Ok?)
      ensures r.Ok? ==> lock.past == [Entry(record, true)]
      ensures r.Err? ==> Others(old(lock.past), lock.past)
      ensures lock.refusals == old(lock.refusals) + if r.Err? then 1 else 0
    {
      r := lock.Create(record);
      Note(record, sent, r.Ok?);
    }

    method Update(record: Record, sent: int) returns (r: Result<nat, LockError>)
      requires lock.Valid()
      modifies this, lock
      ensures lock.Valid()
      ensures renewed == Noted(old(renewed), lock.identity, record.holder, sent, r.Ok?)
      ensures r.Ok? ==> lock.past == old(lock.past) + [Entry(record, true)]
      ensures r.Err? ==> Others(old(lock.past), lock.past)
      ensures lock.refusals == old(lock.refusals) + if r.Err? then 1 else 0
    {
      r := lock.Update(record);
      Note(record, sent, r.Ok?);
    }

    method Note(record: Record, sent: int, ok: bool)
      modifies this
      ensures renewed == Noted(old(renewed), lock.identity, record.holder, sent, ok)
    {
      if !ok || record.holder != lock.identity { return; }
      renewed := sent;
    }

    predicate Current(now: int)
      reads this
    {
      now - renewed < RENEW_DEADLINE
    }

    /** Clears the holder while this process holds the Lease. Whatever others write meanwhile, a Lease
        is only ever cleared when it names this process, and then it was the last Lease written. It stays
        uncleared only when another process holds it or a call was answered with an error. */
    method Release(now: int) returns (err: bool)
      requires lock.Valid() && lock.identity != ""
      modifies this, lock
      ensures renewed == old(renewed) && lock.Valid()
      ensures err <==> lock.refusals > old(lock.refusals)
      ensures err ==> Others(old(lock.past), lock.past)
      ensures !err ==> Cleared(old(lock.past), lock.past, lock.identity)
                       || (Others(old(lock.past), lock.past) && HeldByOther(lock.past, lock.identity))
    {
      var read := lock.Get();
      if read.Err? { return true; }
      if read.value.holder != lock.identity { return false; }
      var r := Update(Record(""), now);
      return r.Err?;
    }
  }

  /** The last write is ours, frees the Lease and replaces one that named `identity`. */
  predicate Cleared(past: seq<Entry>, past': seq<Entry>, identity: string) {
    && |past'| >= 2 && past'[|past'| - 1] == Entry(Record(""), true)
    && past'[|past'| - 2].record.holder == identity
    && Others(past, past'[..|past'| - 1])
  }

  predicate HeldByOther(past: seq<Entry>, identity: string) {
    past != [] && past[|past| - 1].record.holder != identity
  }

  /** When the last successful write that names this process was sent. */
  function Noted(renewed: int, identity: string, holder: string, sent: int, ok: bool): int {
    if ok && holder == identity then sent else renewed
  }

  // ----- The watchdog -------------------------------------------------------------------------------

  /** What the manager's loop meets: a write of the elector returned, the ticker fired, or the manager
      stopped. */
  datatype Event =
    | Renewal(holder: string, sent: int, ok: bool)
    | Check(at: int, elected: bool)
    | Stopped(at: int, elected: bool, canceled: bool)

  /** `lost` tells the caller to exit at once; `released` says the Lease may be given back early. */
  datatype Outcome = Watching | Returned(lost: bool, released: bool)

  /** The renewal time after the first `i` events. */
  function RenewedAt(renewed: int, identity: string, events: seq<Event>, i: nat): int
    requires i <= |events|
  {
    if i == 0 then renewed
    else
      var before := RenewedAt(renewed, identity, events, i - 1);
      match events[i - 1]
      case Renewal(holder, sent, ok) => Noted(before, identity, holder, sent, ok)
      case _ => before
  }

  /** How the loop answers an event. */
  function Answer(e: Event, renewed: int): Outcome {
    match e
    case Renewal(_, _, _) => Watching
    case Check(at, elected) => if elected && at - renewed >= RENEW_DEADLINE then Returned(true, false) else Watching
    case Stopped(at, elected, canceled) =>
      if !elected then Returned(false, false)
      else if !canceled || at - renewed >= RENEW_DEADLINE then Returned(true, false)
      else Returned(false, true)
  }

  /** None of the first `n` events ends the loop. */
  predicate Uneventful(renewed: int, identity: string, events: seq<Event>, n: nat)
    requires n <= |events|
  {
    forall j :: 0 <= j < n ==> Answer(events[j], RenewedAt(renewed, identity, events, j)) == Watching
  }

  /** Runs the loop until an event ends it: `ended` is that event, or the number of events. Only a
      manager that stopped after its work drained, with a current Lease, gives the Lease back. */
  method RunControllerManager(lease: HeldLease, events: seq<Event>) returns (o: Outcome, ended: nat)
    requires lease.lock.Valid() && lease.lock.identity != ""
    modifies lease, lease.lock
    ensures o != Returned(false, true) ==> lease.lock.past == old(lease.lock.past)
    ensures o == Returned(false, true) ==>
              Cleared(old(lease.lock.past), lease.lock.past, lease.lock.identity)
              || (Others(old(lease.lock.past), lease.lock.past)
                  && (lease.lock.refusals > old(lease.lock.refusals) || HeldByOther(lease.lock.past, lease.lock.identity)))
    ensures ended <= |events| && lease.renewed == RenewedAt(old(lease.renewed), lease.lock.identity, events, ended)
    ensures Uneventful(old(lease.renewed), lease.lock.identity, events, ended)
    ensures o == if ended == |events| then Watching else Answer(events[ended], lease.renewed)
    ensures ended < |events| ==> o != Watching
  {
    ended := 0;
    while ended < |events|
      invariant lease.lock.Valid() && lease.lock.past == old(lease.lock.past)
      invariant lease.lock.refusals == old(lease.lock.refusals)
      invariant ended <= |events| && lease.renewed == RenewedAt(old(lease.renewed), lease.lock.identity, events, ended)
      invariant Uneventful(old(lease.renewed), lease.lock.identity, events, ended)
    {
      match events[ended] {
        case Renewal(holder, sent, ok) => lease.Note(Record(holder), sent, ok);
        case Stopped(at, elected, canceled) =>
          if !elected { return Returned(false, false), ended; }
          if !canceled || !lease.Current(at) { return Returned(true, false), ended; }
          var err := lease.Release(at);
          return Returned(false, true), ended;
        case Check(at, elected) =>
          if elected && !lease.Current(at) { return Returned(true, false), ended; }
      }
      ended := ended + 1;
    }
    o := Watching;
  }

  /** As long as the loop goes on, an elected process was within the renew deadline at its last check;
      so with checks at most `gap` apart it is stopped no later than `gap` after the deadline, which
      is what the protocol's slack has to cover. */
  lemma {:induction false} StoppedInTime(renewed: int, identity: string, events: seq<Event>, j: nat, now: int, gap: nat)
    requires j < |events| && events[j].Check? && events[j].elected
    requires Uneventful(renewed, identity, events, |events|)
    requires forall i :: 0 <= i < |events| && events[i].Renewal? ==> RenewedAt(renewed, identity, events, i) <= events[i].sent
    requires now <= events[j].at + gap
    ensures now < RenewedAt(renewed, identity, events, |events|) + RENEW_DEADLINE + gap
  {
    assert Answer(events[j], RenewedAt(renewed, identity, events, j)) == Watching;
    RenewedGrows(renewed, identity, events, j, |events|);
  }

  lemma {:induction false} RenewedGrows(renewed: int, identity: string, events: seq<Event>, i: nat, k: nat)
    requires i <= k <= |events|
    requires forall j :: 0 <= j < |events| && events[j].Renewal? ==> RenewedAt(renewed, identity, events, j) <= events[j].sent
    ensures RenewedAt(renewed, identity, events, i) <= RenewedAt(renewed, identity, events, k)
    decreases k
  {
    if i < k { RenewedGrows(renewed, identity, events, i, k - 1); }
  }

  // ----- The protocol's process ---------------------------------------------------------------------

  /** The identity a landed write leaves in the Lease; none if it frees it. */
  function HolderOf(w: Write, name: Id -> string): string { if w.holder.Some? then name(w.holder.value) else "" }

  /** The time the code notes for a successful write is the one the protocol's process notes. */
  lemma NotedIsAccepted(p: Proc, w: Write, now: int, name: Id -> string)
    requires w.fate.Landed? && (forall a, b :: name(a) == name(b) ==> a == b) && forall a :: name(a) != ""
    ensures Accepted(p, w, now).renewed == Noted(p.renewed, name(p.id), HolderOf(w, name), w.sent, true)
  {
  }

  /** So a process whose watchdog has reported no loss, with checks no further apart than the slack, is
      one the protocol lets time pass for. */
  lemma {:induction false} WatchedMayRun(p: Proc, t: Timing, renewed: int, identity: string, events: seq<Event>, j: nat, now: int)
    requires j < |events| && events[j].Check? && events[j].elected && now <= events[j].at + t.slack
    requires Uneventful(renewed, identity, events, |events|) && p.renewed == RenewedAt(renewed, identity, events, |events|)
    requires forall i :: 0 <= i < |events| && events[i].Renewal? ==> RenewedAt(renewed, identity, events, i) <= events[i].sent
    ensures MayRunAt(p, t, now)
  {
    StoppedInTime(renewed, identity, events, j, now, t.slack);
  }
}
