/** The controller Lease in real time: processes that read, take, renew and release one Lease by
    conditional writes, under the timing rules of console-api/controller_lease.go and
    console-api/main.go. Times are milliseconds of one clock. */
module LeaseProtocol {
  import opened Wrappers

  type Id = nat

  const LEASE_DURATION := 60_000

  const RENEW_DEADLINE := 40_000

  /** How long a client waits for the reply to a write, and how long after the renew deadline the
      process of a leader may still be running. */
  datatype Timing = Timing(timeout: nat, slack: nat) {
    predicate Valid() { timeout <= RENEW_DEADLINE + slack < LEASE_DURATION }
  }

  datatype Phase = Candidate | Leading | Drained

  /** One process. It has seen version `seen` of the Lease, first at `seenAt`, and may wait for the
      reply to one of its writes. `renewed` is when its last successful write was sent, and `held`
      the version that write made. */
  datatype Proc = Proc(id: Id, alive: bool, phase: Phase, renewed: int, held: nat, seen: nat, seenAt: int,
                       waiting: Option<nat>)

  datatype Fate = InFlight | Landed(version: nat) | Refused

  /** A write on its way: it applies only to the version it was based on. */
  datatype Write = Write(owner: nat, base: nat, holder: Option<Id>, sent: int, fate: Fate)

  /** The holder each version of the Lease names; the last is the Lease now, changed at `changedAt`. */
  datatype State = State(now: int, holders: seq<Option<Id>>, changedAt: int, procs: seq<Proc>, net: seq<Write>)

  datatype Step =
    | Pass(to: int)
    | Start(id: Id)
    | Exit(p: nat)
    | Observe(p: nat, version: nat)
    | Send(p: nat)
    | Land(w: nat)
    | Reply(p: nat)
    | GiveUp(p: nat)
    | Drain(p: nat)
    | Release(p: nat)

  function Start0(now: int): State { State(now, [None], now, [], []) }

  /** A running leader's process is stopped by the watchdog before the slack is over. */
  predicate MayRunAt(p: Proc, t: Timing, now: int) {
    p.phase.Leading? ==> now <= p.renewed + RENEW_DEADLINE + t.slack
  }

  /** Whether a process may write its own name: the Lease it saw is free, its own, or has not been
      seen to change for a lease duration. */
  predicate MayTake(s: State, p: Proc) {
    p.seen < |s.holders| &&
    (s.holders[p.seen] == None || s.holders[p.seen] == Some(p.id) || s.now >= p.seenAt + LEASE_DURATION)
  }

  predicate Active(s: State, p: nat) { p < |s.procs| && s.procs[p].alive }

  /** The reply to the write a process waits for can be accepted: it landed, and not too long ago. */
  predicate Answered(s: State, p: Proc, t: Timing) {
    p.waiting.Some? && p.waiting.value < |s.net| && s.net[p.waiting.value].fate.Landed?
    && s.now <= s.net[p.waiting.value].sent + t.timeout
  }

  function SetProc(s: State, p: nat, q: Proc): State
    requires p < |s.procs|
  {
    s.(procs := s.procs[p := q])
  }

  function SendFrom(s: State, p: nat, holder: Option<Id>): State
    requires p < |s.procs|
  {
    var q := s.procs[p];
    s.(procs := s.procs[p := q.(waiting := Some(|s.net|))],
       net := s.net + [Write(p, q.seen, holder, s.now, InFlight)])
  }

  function LandWrite(s: State, i: nat): State
    requires i < |s.net|
  {
    var w := s.net[i];
    if w.base == |s.holders| - 1 then
      s.(holders := s.holders + [w.holder], changedAt := s.now, net := s.net[i := w.(fate := Landed(|s.holders|))])
    else s.(net := s.net[i := w.(fate := Refused)])
  }

  /** A successful reply: the process notes when it sent the write if the write names it, and a
      candidate that took the Lease starts leading. */
  function Accepted(p: Proc, w: Write, now: int): Proc
    requires w.fate.Landed?
  {
    if w.holder == Some(p.id) then
      p.(waiting := None, renewed := w.sent, held := w.fate.version, seen := w.fate.version, seenAt := now,
         phase := if p.phase.Candidate? then Leading else p.phase)
    else p.(waiting := None)
  }

  /** One step; a step that is not possible does nothing. */
  function Apply(s: State, t: Timing, step: Step): State {
    match step
    case Pass(to) =>
      if s.now <= to && (forall i :: 0 <= i < |s.procs| && s.procs[i].alive ==> MayRunAt(s.procs[i], t, to))
      then s.(now := to) else s
    case Start(id) =>
      if forall i :: 0 <= i < |s.procs| && s.procs[i].alive ==> s.procs[i].id != id
      then s.(procs := s.procs + [Proc(id, true, Candidate, s.now, 0, 0, s.now, None)]) else s
    case Exit(p) => if Active(s, p) then SetProc(s, p, s.procs[p].(alive := false)) else s
    case Observe(p, v) =>
      if Active(s, p) && v < |s.holders| && v != s.procs[p].seen
      then SetProc(s, p, s.procs[p].(seen := v, seenAt := s.now)) else s
    case Send(p) =>
      if Active(s, p) && !s.procs[p].phase.Drained? && s.procs[p].waiting == None && MayTake(s, s.procs[p])
      then SendFrom(s, p, Some(s.procs[p].id)) else s
    case Land(i) => if i < |s.net| && s.net[i].fate.InFlight? then LandWrite(s, i) else s
    case Reply(p) =>
      if Active(s, p) && Answered(s, s.procs[p], t)
      then SetProc(s, p, Accepted(s.procs[p], s.net[s.procs[p].waiting.value], s.now)) else s
    case GiveUp(p) => if Active(s, p) then SetProc(s, p, s.procs[p].(waiting := None)) else s
    case Drain(p) =>
      if Active(s, p) && s.procs[p].phase.Leading? then SetProc(s, p, s.procs[p].(phase := Drained)) else s
    case Release(p) =>
      if Active(s, p) && s.procs[p].phase.Drained? && s.now < s.procs[p].renewed + RENEW_DEADLINE
         && s.procs[p].seen < |s.holders| && s.holders[s.procs[p].seen] == Some(s.procs[p].id)
      then SendFrom(s, p, None) else s
  }

  function Run(s: State, t: Timing, steps: seq<Step>): State {
    if steps == [] then s else Apply(Run(s, t, steps[..|steps| - 1]), t, steps[|steps| - 1])
  }

  // ----- What every step keeps ----------------------------------------------------------------------

  predicate WriteOk(s: State, w: Write) {
    && w.owner < |s.procs| && w.base < |s.holders| && w.sent <= s.now
    && (w.holder.Some? ==> w.holder == Some(s.procs[w.owner].id))
    && (w.fate.Landed? ==>
          w.fate.version < |s.holders| && w.sent <= s.changedAt && s.holders[w.fate.version] == w.holder)
  }

  predicate ProcDated(s: State, i: nat, p: Proc) {
    && p.seen < |s.holders| && p.seenAt <= s.now && p.renewed <= s.now
    && (p.seen == |s.holders| - 1 ==> s.changedAt <= p.seenAt)
    && (p.waiting.Some? ==> p.waiting.value < |s.net| && s.net[p.waiting.value].owner == i)
  }

  predicate ProcOk(s: State, t: Timing, i: nat, p: Proc) {
    && ProcDated(s, i, p)
    && (p.alive && p.phase.Leading? ==> p.renewed <= s.changedAt && MayRunAt(p, t, s.now))
  }

  /** A process that leads, or that is about to learn that it took the Lease. */
  predicate Holds(s: State, t: Timing, p: Proc) {
    p.alive && (p.phase.Leading? || (Answered(s, p, t) && s.net[p.waiting.value].holder == Some(p.id)))
  }

  /** While it does, the Lease names it and no write that names another can still land. */
  predicate Guarded(s: State, id: Id) {
    && |s.holders| > 0 && s.holders[|s.holders| - 1] == Some(id)
    && forall i :: 0 <= i < |s.net| ==> Harmless(s, s.net[i], id)
  }

  predicate Harmless(s: State, w: Write, id: Id) {
    w.fate.InFlight? && w.base == |s.holders| - 1 ==> w.holder == Some(id)
  }

  ghost predicate Good(s: State, t: Timing) {
    && |s.holders| > 0 && s.changedAt <= s.now
    && (forall i :: 0 <= i < |s.net| ==> WriteOk(s, s.net[i]))
    && (forall i :: 0 <= i < |s.procs| ==> ProcOk(s, t, i, s.procs[i]))
    && (forall i, j :: 0 <= i < j < |s.procs| && s.procs[i].alive && s.procs[j].alive ==> s.procs[i].id != s.procs[j].id)
    && (forall i :: 0 <= i < |s.procs| && Holds(s, t, s.procs[i]) ==> Guarded(s, s.procs[i].id))
  }

  lemma SendOk(s: State, t: Timing, p: nat, holder: Option<Id>)
    requires t.Valid() && Good(s, t) && Active(s, p)
    requires s.procs[p].seen < |s.holders|
    requires if holder == None then s.procs[p].phase.Drained? && s.holders[s.procs[p].seen] == Some(s.procs[p].id)
             else holder == Some(s.procs[p].id) && MayTake(s, s.procs[p])
    ensures Good(SendFrom(s, p, holder), t)
  {
    var s' := SendFrom(s, p, holder);
    forall i | 0 <= i < |s'.procs| && Holds(s', t, s'.procs[i]) ensures Guarded(s', s'.procs[i].id) {
      assert Holds(s, t, s.procs[i]);
    }
  }

  lemma LandOk(s: State, t: Timing, w: nat)
    requires Good(s, t) && w < |s.net| && s.net[w].fate.InFlight?
    ensures Good(LandWrite(s, w), t)
  {
    var s' := LandWrite(s, w);
    forall i | 0 <= i < |s'.procs| && Holds(s', t, s'.procs[i]) ensures Guarded(s', s'.procs[i].id) {
      if Holds(s, t, s.procs[i]) { assert Harmless(s, s.net[w], s.procs[i].id); }
    }
  }

  lemma ReplyOk(s: State, t: Timing, p: nat)
    requires t.Valid() && Good(s, t) && Active(s, p) && Answered(s, s.procs[p], t)
    ensures Good(SetProc(s, p, Accepted(s.procs[p], s.net[s.procs[p].waiting.value], s.now)), t)
  {
    var s' := SetProc(s, p, Accepted(s.procs[p], s.net[s.procs[p].waiting.value], s.now));
    assert WriteOk(s, s.net[s.procs[p].waiting.value]);
    forall i | 0 <= i < |s'.procs| && Holds(s', t, s'.procs[i]) ensures Guarded(s', s'.procs[i].id) {
      assert Holds(s, t, s.procs[i]);
    }
  }

  lemma ApplyOk(s: State, t: Timing, step: Step)
    requires t.Valid() && Good(s, t)
    ensures Good(Apply(s, t, step), t)
  {
    match step
    case Send(p) => if Apply(s, t, step) != s { SendOk(s, t, p, Some(s.procs[p].id)); }
    case Release(p) => if Apply(s, t, step) != s { SendOk(s, t, p, None); }
    case Land(i) => if Apply(s, t, step) != s { LandOk(s, t, i); }
    case Reply(p) => if Active(s, p) && Answered(s, s.procs[p], t) { ReplyOk(s, t, p); }
    case _ => QuietOk(s, t, step);
  }

  /** The other steps make no process a holder. */
  lemma QuietOk(s: State, t: Timing, step: Step)
    requires t.Valid() && Good(s, t) && !step.Send? && !step.Release? && !step.Land? && !step.Reply?
    ensures Good(Apply(s, t, step), t)
  {
    match step
    case Pass(to) =>
    case Start(id) => if Apply(s, t, step) != s { StartOk(s, t, id); }
    case Exit(p) => if Active(s, p) { ChangeOk(s, t, p, s.procs[p].(alive := false)); }
    case Observe(p, v) =>
      if Apply(s, t, step) != s { ChangeOk(s, t, p, s.procs[p].(seen := v, seenAt := s.now)); }
    case GiveUp(p) => if Active(s, p) { ChangeOk(s, t, p, s.procs[p].(waiting := None)); }
    case Drain(p) => if Apply(s, t, step) != s { ChangeOk(s, t, p, s.procs[p].(phase := Drained)); }
  }

  lemma StartOk(s: State, t: Timing, id: Id)
    requires Good(s, t) && forall i :: 0 <= i < |s.procs| && s.procs[i].alive ==> s.procs[i].id != id
    requires |s.holders| > 0
    ensures Good(s.(procs := s.procs + [Proc(id, true, Candidate, s.now, 0, 0, s.now, None)]), t)
  {
    var s' := s.(procs := s.procs + [Proc(id, true, Candidate, s.now, 0, 0, s.now, None)]);
    forall i | 0 <= i < |s'.procs| && Holds(s', t, s'.procs[i]) ensures Guarded(s', s'.procs[i].id) {
      assert Holds(s, t, s.procs[i]);
    }
  }

  lemma ChangeOk(s: State, t: Timing, p: nat, q: Proc)
    requires Good(s, t) && Active(s, p) && ProcOk(s, t, p, q)
    requires q.id == s.procs[p].id && (Holds(s, t, q) ==> Holds(s, t, s.procs[p]))
    ensures Good(SetProc(s, p, q), t)
  {
    var s' := SetProc(s, p, q);
    forall i | 0 <= i < |s'.procs| && Holds(s', t, s'.procs[i]) ensures Guarded(s', s'.procs[i].id) {
      assert Holds(s, t, s.procs[i]);
    }
  }

  lemma {:induction false} RunOk(now: int, t: Timing, steps: seq<Step>)
    requires t.Valid()
    ensures Good(Run(Start0(now), t, steps), t)
  {
    if steps != [] {
      RunOk(now, t, steps[..|steps| - 1]);
      ApplyOk(Run(Start0(now), t, steps[..|steps| - 1]), t, steps[|steps| - 1]);
    }
  }

  predicate Leads(s: State, i: nat) { Active(s, i) && s.procs[i].phase.Leading? }

  /** At most one process does leader-only work. */
  ghost predicate Exclusive(s: State) { forall i: nat, j: nat :: Leads(s, i) && Leads(s, j) ==> i == j }

  lemma {:induction false} MutualExclusion(now: int, t: Timing, steps: seq<Step>)
    requires t.Valid()
    ensures Exclusive(Run(Start0(now), t, steps))
  {
    RunOk(now, t, steps);
    var s := Run(Start0(now), t, steps);
    forall i: nat, j: nat | Leads(s, i) && Leads(s, j) ensures i == j {
      assert Holds(s, t, s.procs[i]) && Holds(s, t, s.procs[j]);
    }
  }

  /** The run in which a second process takes over from a leader that keeps working for a whole lease
      duration. */
  function Overrun(): seq<Step> {
    [Start(1), Send(0), Land(0), Reply(0), Start(2), Observe(1, 1), Pass(LEASE_DURATION), Send(1), Land(1), Reply(1)]
  }

  lemma Extend(s: State, t: Timing, steps: seq<Step>, step: Step)
    ensures Run(s, t, steps + [step]) == Apply(Run(s, t, steps), t, step)
  {
    assert (steps + [step])[..|steps|] == steps;
  }

  lemma OverrunStarted(t: Timing)
    ensures Run(Start0(0), t, Overrun()[..1]) == State(0, [None], 0, [Proc(1, true, Candidate, 0, 0, 0, 0, None)], [])
  {
    var all := Overrun();
    assert all[..0] == [] && all[..1] == all[..0] + [all[0]];
    Extend(Start0(0), t, all[..0], all[0]);
  }

  lemma OverrunSent(t: Timing)
    ensures Run(Start0(0), t, Overrun()[..2])
            == State(0, [None], 0, [Proc(1, true, Candidate, 0, 0, 0, 0, Some(0))], [Write(0, 0, Some(1), 0, InFlight)])
  {
    OverrunStarted(t);
    var all := Overrun();
    assert all[..2] == all[..1] + [all[1]];
    Extend(Start0(0), t, all[..1], all[1]);
  }

  lemma OverrunTaken(t: Timing)
    ensures Run(Start0(0), t, Overrun()[..4])
            == State(0, [None, Some(1)], 0, [Proc(1, true, Leading, 0, 1, 1, 0, None)], [Write(0, 0, Some(1), 0, Landed(1))])
  {
    OverrunSent(t);
    var all := Overrun();
    assert all[..3] == all[..2] + [all[2]] && all[..4] == all[..3] + [all[3]];
    Extend(Start0(0), t, all[..2], all[2]);
    Extend(Start0(0), t, all[..3], all[3]);
  }

  lemma OverrunWaited(t: Timing)
    requires RENEW_DEADLINE + t.slack >= LEASE_DURATION
    ensures Run(Start0(0), t, Overrun()[..7])
            == State(LEASE_DURATION, [None, Some(1)], 0,
                     [Proc(1, true, Leading, 0, 1, 1, 0, None), Proc(2, true, Candidate, 0, 0, 1, 0, None)],
                     [Write(0, 0, Some(1), 0, Landed(1))])
  {
    OverrunTaken(t);
    var all := Overrun();
    assert all[..5] == all[..4] + [all[4]] && all[..6] == all[..5] + [all[5]] && all[..7] == all[..6] + [all[6]];
    Extend(Start0(0), t, all[..4], all[4]);
    Extend(Start0(0), t, all[..5], all[5]);
    Extend(Start0(0), t, all[..6], all[6]);
  }

  lemma {:induction false} OverrunBreaks(t: Timing)
    requires RENEW_DEADLINE + t.slack >= LEASE_DURATION
    ensures !Exclusive(Run(Start0(0), t, Overrun()))
  {
    OverrunWaited(t);
    var all := Overrun();
    assert all[..8] == all[..7] + [all[7]] && all[..9] == all[..8] + [all[8]] && all == all[..9] + [all[9]];
    Extend(Start0(0), t, all[..7], all[7]);
    Extend(Start0(0), t, all[..8], all[8]);
    Extend(Start0(0), t, all[..9], all[9]);
    assert Leads(Run(Start0(0), t, all), 0) && Leads(Run(Start0(0), t, all), 1);
  }

  /** With replies bounded by the deadline, the Lease excludes two leaders in every run exactly when
      the watchdog stops a leader before a lease duration has passed since its last renewal. */
  lemma {:induction false} ExclusionNeedsSlack(t: Timing)
    requires t.timeout <= RENEW_DEADLINE + t.slack
    ensures (forall now, steps :: Exclusive(Run(Start0(now), t, steps))) <==> RENEW_DEADLINE + t.slack < LEASE_DURATION
  {
    if t.Valid() {
      forall now, steps ensures Exclusive(Run(Start0(now), t, steps)) { MutualExclusion(now, t, steps); }
    } else {
      OverrunBreaks(t);
    }
  }

  // ----- Renewals are noted early -------------------------------------------------------------------

  /** Whoever has seen the version a write made, or a later one, saw it after the write was sent. */
  predicate SentFirst(w: Write, q: Proc) { w.fate.Landed? && q.seen >= w.fate.version ==> w.sent <= q.seenAt }

  predicate NotedFirst(p: Proc, q: Proc) { 0 < p.held <= q.seen ==> p.renewed <= q.seenAt }

  /** What does not depend on the timing: indices are in bounds, and nothing is dated later than it is. */
  ghost predicate Dated(s: State) {
    && |s.holders| > 0 && s.changedAt <= s.now
    && (forall i :: 0 <= i < |s.net| ==> WriteOk(s, s.net[i]))
    && (forall i :: 0 <= i < |s.procs| ==> ProcDated(s, i, s.procs[i]))
  }

  lemma SendDated(s: State, p: nat, holder: Option<Id>)
    requires Dated(s) && p < |s.procs| && (holder.Some? ==> holder.value == s.procs[p].id)
    ensures Dated(SendFrom(s, p, holder))
  {
  }

  lemma LandDated(s: State, i: nat)
    requires Dated(s) && i < |s.net|
    ensures Dated(LandWrite(s, i))
  {
    assert WriteOk(s, s.net[i]);
  }

  lemma ReplyDated(s: State, t: Timing, p: nat)
    requires Dated(s) && p < |s.procs| && Answered(s, s.procs[p], t)
    ensures Dated(SetProc(s, p, Accepted(s.procs[p], s.net[s.procs[p].waiting.value], s.now)))
  {
    assert ProcDated(s, p, s.procs[p]) && WriteOk(s, s.net[s.procs[p].waiting.value]);
  }

  lemma ApplyDated(s: State, t: Timing, step: Step)
    requires Dated(s)
    ensures Dated(Apply(s, t, step))
  {
    if Apply(s, t, step) != s {
      match step
      case Send(p) => SendDated(s, p, Some(s.procs[p].id));
      case Release(p) => SendDated(s, p, None);
      case Land(i) => LandDated(s, i);
      case Reply(p) => ReplyDated(s, t, p);
      case Pass(to) =>
      case Start(id) =>
      case Exit(p) =>
      case Observe(p, v) =>
      case GiveUp(p) =>
      case Drain(p) =>
    }
  }

  ghost predicate Early(s: State) {
    && (forall i, j :: 0 <= i < |s.net| && 0 <= j < |s.procs| ==> SentFirst(s.net[i], s.procs[j]))
    && (forall i, j :: 0 <= i < |s.procs| && 0 <= j < |s.procs| ==> NotedFirst(s.procs[i], s.procs[j]))
    && (forall i :: 0 <= i < |s.net| && s.net[i].fate.Landed? ==> s.net[i].fate.version > 0)
    && (forall i :: 0 <= i < |s.procs| ==> s.procs[i].held < |s.holders|)
  }

  lemma ChangeEarly(s: State, p: nat, q: Proc)
    requires Early(s) && p < |s.procs| && q.held < |s.holders|
    requires forall i :: 0 <= i < |s.net| ==> SentFirst(s.net[i], q)
    requires forall i :: 0 <= i < |s.procs| ==> NotedFirst(s.procs[i], q) && NotedFirst(q, s.procs[i])
    requires NotedFirst(q, q)
    ensures Early(SetProc(s, p, q))
  {
  }

  lemma SendEarly(s: State, p: nat, holder: Option<Id>)
    requires Early(s) && p < |s.procs|
    ensures Early(SendFrom(s, p, holder))
  {
    assert NotedFirst(s.procs[p], s.procs[p]);
    var q := s.procs[p].(waiting := Some(|s.net|));
    ChangeEarly(s, p, q);
  }

  lemma LandEarly(s: State, i: nat)
    requires Dated(s) && Early(s) && i < |s.net|
    ensures Early(LandWrite(s, i))
  {
    var s' := LandWrite(s, i);
    forall j | 0 <= j < |s.procs| ensures SentFirst(s'.net[i], s.procs[j]) {
      assert ProcDated(s, j, s.procs[j]);
    }
  }

  lemma ReplyEarly(s: State, t: Timing, p: nat)
    requires Dated(s) && Early(s) && Active(s, p) && Answered(s, s.procs[p], t)
    ensures Early(SetProc(s, p, Accepted(s.procs[p], s.net[s.procs[p].waiting.value], s.now)))
  {
    var w := s.net[s.procs[p].waiting.value];
    var q := Accepted(s.procs[p], w, s.now);
    assert WriteOk(s, w);
    forall i | 0 <= i < |s.net| ensures SentFirst(s.net[i], q) {
      assert WriteOk(s, s.net[i]) && SentFirst(s.net[i], s.procs[p]);
    }
    forall i | 0 <= i < |s.procs| ensures NotedFirst(s.procs[i], q) && NotedFirst(q, s.procs[i]) {
      assert ProcDated(s, i, s.procs[i]) && SentFirst(w, s.procs[i]);
      assert NotedFirst(s.procs[i], s.procs[p]) && NotedFirst(s.procs[p], s.procs[i]);
    }
    assert NotedFirst(s.procs[p], s.procs[p]);
    ChangeEarly(s, p, q);
  }

  /** A change that leaves what a process has noted and sees. */
  lemma SameEarly(s: State, p: nat, q: Proc)
    requires Early(s) && p < |s.procs|
    requires q.held == s.procs[p].held && q.renewed == s.procs[p].renewed
    requires q.seen == s.procs[p].seen && q.seenAt == s.procs[p].seenAt
    ensures Early(SetProc(s, p, q))
  {
    assert NotedFirst(s.procs[p], s.procs[p]);
    ChangeEarly(s, p, q);
  }

  lemma ObserveEarly(s: State, p: nat, v: nat)
    requires Dated(s) && Early(s) && p < |s.procs|
    ensures Early(SetProc(s, p, s.procs[p].(seen := v, seenAt := s.now)))
  {
    var q := s.procs[p].(seen := v, seenAt := s.now);
    forall i | 0 <= i < |s.net| ensures SentFirst(s.net[i], q) { assert WriteOk(s, s.net[i]); }
    forall i | 0 <= i < |s.procs| ensures NotedFirst(s.procs[i], q) && NotedFirst(q, s.procs[i]) {
      assert ProcDated(s, i, s.procs[i]) && NotedFirst(s.procs[p], s.procs[i]);
    }
    assert ProcDated(s, p, s.procs[p]);
    ChangeEarly(s, p, q);
  }

  lemma StartEarly(s: State, id: Id)
    requires Dated(s) && Early(s)
    ensures Early(s.(procs := s.procs + [Proc(id, true, Candidate, s.now, 0, 0, s.now, None)]))
  {
  }

  lemma ApplyEarly(s: State, t: Timing, step: Step)
    requires Dated(s) && Early(s)
    ensures Early(Apply(s, t, step))
  {
    if Apply(s, t, step) != s {
      match step
      case Pass(to) =>
      case Start(id) => StartEarly(s, id);
      case Exit(p) => SameEarly(s, p, s.procs[p].(alive := false));
      case Observe(p, v) => ObserveEarly(s, p, v);
      case Send(p) => SendEarly(s, p, Some(s.procs[p].id));
      case Land(i) => LandEarly(s, i);
      case Reply(p) => ReplyEarly(s, t, p);
      case GiveUp(p) => SameEarly(s, p, s.procs[p].(waiting := None));
      case Drain(p) => SameEarly(s, p, s.procs[p].(phase := Drained));
      case Release(p) => SendEarly(s, p, None);
    }
  }

  lemma {:induction false} RunEarly(now: int, t: Timing, steps: seq<Step>)
    ensures Dated(Run(Start0(now), t, steps)) && Early(Run(Start0(now), t, steps))
  {
    if steps != [] {
      var before := steps[..|steps| - 1];
      RunEarly(now, t, before);
      ApplyDated(Run(Start0(now), t, before), t, steps[|steps| - 1]);
      ApplyEarly(Run(Start0(now), t, before), t, steps[|steps| - 1]);
    }
  }

  /** The time a process notes for its last renewal is never later than any process's observation of
      that renewal or of anything after it. */
  lemma {:induction false} RenewedBeforeObserved(now: int, t: Timing, steps: seq<Step>, i: nat, j: nat)
    ensures var s := Run(Start0(now), t, steps);
            i < |s.procs| && j < |s.procs| && 0 < s.procs[i].held <= s.procs[j].seen
            ==> s.procs[i].renewed <= s.procs[j].seenAt
  {
    RunEarly(now, t, steps);
    var s := Run(Start0(now), t, steps);
    if i < |s.procs| && j < |s.procs| { assert NotedFirst(s.procs[i], s.procs[j]); }
  }
}
