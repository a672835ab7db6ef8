/** Repeated evaluation of one resource under constant usage: no flapping, and a fixed point. */
module SizingRuns {
  import opened Wrappers
  import opened Sizing

  /** What evaluation goes by besides usage; decreases keep to the profile's floor. */
  datatype Rule = Rule(minHot: nat, shrinks: bool, floor: nat, unit: nat) {
    predicate Valid() { unit > 0 && minHot <= 3 }
  }

  function Next(request: nat, use: nat, history: seq<nat>, rule: Rule): nat
    requires rule.Valid()
  {
    NextRequest(request, use, history, rule.minHot, rule.shrinks, rule.floor, rule.unit)
  }

  predicate Rises(request: nat, use: nat) { request > 0 && Hot(use, request) }

  predicate Falls(request: nat, use: nat, rule: Rule)
    requires rule.Valid()
  {
    Cool(use, request) && rule.shrinks && Lowered(request, rule.floor, rule.unit) < request
  }

  // ----- No flapping --------------------------------------------------------------------------------

  lemma MultipleAtLeast(k: nat, unit: nat)
    requires k >= 2
    ensures k * unit >= 2 * unit
  {
  }

  lemma RoundUpIsMultiple(n: nat, unit: nat) returns (k: nat)
    requires unit > 0
    ensures RoundUp(n, unit) == k * unit && (n > 0 ==> k > 0) && (k > 0 ==> (k - 1) * unit < n)
  {
    k := (n + unit - 1) / unit;
    RoundUpBounds(n, unit);
    if k > 0 { assert (k - 1) * unit == k * unit - unit; }
  }

  lemma LoweredAtLeast(request: nat, floor: nat, unit: nat)
    requires unit > 0 && request > 0
    ensures 2 * Lowered(request, floor, unit) >= request && Lowered(request, floor, unit) >= unit
  {
    var half := (request + 1) / 2;
    var n := if half < floor then floor else half;
    RoundUpBounds(n, unit);
    var k := RoundUpIsMultiple(n, unit);
    if k >= 2 { MultipleAtLeast(k, unit); }
  }

  /** A request that was raised is not one that can be lowered, in spite of the rounding: only a
      single unit can be far above the usage, and a single unit is the least there is. */
  lemma {:induction false} RaisedNeverFalls(request: nat, use: nat, rule: Rule)
    requires rule.Valid() && Rises(request, use)
    ensures !Falls(Raised(request, rule.unit), use, rule)
  {
    var raised := Raised(request, rule.unit);
    var n := (3 * request + 1) / 2;
    RaisedGrows(request, rule.unit);
    var k := RoundUpIsMultiple(n, rule.unit);
    LoweredAtLeast(raised, rule.floor, rule.unit);
    if k >= 2 && Falls(raised, use, rule) {
      var u := rule.unit;
      assert (k - 1) * u == k * u - u;
      MultipleAtLeast(k, u);
    }
  }

  /** And a request that was lowered is not one that can be raised. */
  lemma {:induction false} LoweredNeverRises(request: nat, use: nat, rule: Rule)
    requires rule.Valid() && request > 0 && Falls(request, use, rule)
    ensures !Rises(Lowered(request, rule.floor, rule.unit), use)
  {
    LoweredAtLeast(request, rule.floor, rule.unit);
  }

  // ----- Runs ---------------------------------------------------------------------------------------

  /** A request and the usage observed for it. */
  datatype State = State(request: nat, history: seq<nat>)

  /** One evaluation; `forget` empties the history after it, as a resize does. */
  function Step(s: State, use: nat, rule: Rule, forget: bool): State
    requires rule.Valid()
  {
    var history := Observed(s.history, use);
    State(Next(s.request, use, history, rule), if forget then [] else history)
  }

  function Run(s: State, use: nat, rule: Rule, forgets: seq<bool>): State
    requires rule.Valid()
  {
    if forgets == [] then s
    else Step(Run(s, use, rule, forgets[..|forgets| - 1]), use, rule, forgets[|forgets| - 1])
  }

  lemma StepUp(request: nat, use: nat, history: seq<nat>, rule: Rule)
    requires rule.Valid() && !Falls(request, use, rule)
    ensures Next(request, use, history, rule) >= request && !Falls(Next(request, use, history, rule), use, rule)
  {
    if Next(request, use, history, rule) != request {
      RaisedGrows(request, rule.unit);
      RaisedNeverFalls(request, use, rule);
    }
  }

  lemma StepDown(request: nat, use: nat, history: seq<nat>, rule: Rule)
    requires rule.Valid() && !Rises(request, use)
    ensures Next(request, use, history, rule) <= request && !Rises(Next(request, use, history, rule), use)
  {
    if Next(request, use, history, rule) != request { LoweredNeverRises(request, use, rule); }
  }

  lemma LastUp(s: State, use: nat, rule: Rule, forget: bool)
    requires rule.Valid() && !Falls(s.request, use, rule)
    ensures Step(s, use, rule, forget).request >= s.request && !Falls(Step(s, use, rule, forget).request, use, rule)
  {
    StepUp(s.request, use, Observed(s.history, use), rule);
  }

  lemma {:induction false} StaysUp(s: State, use: nat, rule: Rule, forgets: seq<bool>)
    requires rule.Valid() && !Falls(s.request, use, rule)
    ensures !Falls(Run(s, use, rule, forgets).request, use, rule)
  {
    if forgets != [] {
      var n := |forgets| - 1;
      StaysUp(s, use, rule, forgets[..n]);
      LastUp(Run(s, use, rule, forgets[..n]), use, rule, forgets[n]);
    }
  }

  lemma {:induction false} GoesUp(s: State, use: nat, rule: Rule, forgets: seq<bool>, i: nat)
    requires rule.Valid() && !Falls(s.request, use, rule) && i <= |forgets|
    ensures Run(s, use, rule, forgets[..i]).request <= Run(s, use, rule, forgets).request
  {
    if i == |forgets| {
      assert forgets[..i] == forgets;
    } else {
      var n := |forgets| - 1;
      GoesUp(s, use, rule, forgets[..n], i);
      assert forgets[..n][..i] == forgets[..i];
      StaysUp(s, use, rule, forgets[..n]);
      LastUp(Run(s, use, rule, forgets[..n]), use, rule, forgets[n]);
    }
  }

  lemma LastDown(s: State, use: nat, rule: Rule, forget: bool)
    requires rule.Valid() && !Rises(s.request, use)
    ensures Step(s, use, rule, forget).request <= s.request && !Rises(Step(s, use, rule, forget).request, use)
  {
    StepDown(s.request, use, Observed(s.history, use), rule);
  }

  lemma {:induction false} StaysDown(s: State, use: nat, rule: Rule, forgets: seq<bool>)
    requires rule.Valid() && !Rises(s.request, use)
    ensures !Rises(Run(s, use, rule, forgets).request, use)
  {
    if forgets != [] {
      var n := |forgets| - 1;
      StaysDown(s, use, rule, forgets[..n]);
      LastDown(Run(s, use, rule, forgets[..n]), use, rule, forgets[n]);
    }
  }

  lemma {:induction false} GoesDown(s: State, use: nat, rule: Rule, forgets: seq<bool>, i: nat)
    requires rule.Valid() && !Rises(s.request, use) && i <= |forgets|
    ensures Run(s, use, rule, forgets[..i]).request >= Run(s, use, rule, forgets).request
  {
    if i == |forgets| {
      assert forgets[..i] == forgets;
    } else {
      var n := |forgets| - 1;
      GoesDown(s, use, rule, forgets[..n], i);
      assert forgets[..n][..i] == forgets[..i];
      StaysDown(s, use, rule, forgets[..n]);
      LastDown(Run(s, use, rule, forgets[..n]), use, rule, forgets[n]);
    }
  }

  /** Whatever was observed before and whenever the history is forgotten, a run under constant usage
      moves the request in one direction only. */
  lemma {:induction false} NoFlapping(s: State, use: nat, rule: Rule, forgets: seq<bool>)
    requires rule.Valid()
    ensures (forall i, j :: 0 <= i <= j <= |forgets| ==>
               Run(s, use, rule, forgets[..i]).request <= Run(s, use, rule, forgets[..j]).request)
            || (forall i, j :: 0 <= i <= j <= |forgets| ==>
                  Run(s, use, rule, forgets[..i]).request >= Run(s, use, rule, forgets[..j]).request)
  {
    if Falls(s.request, use, rule) {
      forall i, j | 0 <= i <= j <= |forgets|
        ensures Run(s, use, rule, forgets[..i]).request >= Run(s, use, rule, forgets[..j]).request
      {
        GoesDown(s, use, rule, forgets[..j], i);
        assert forgets[..j][..i] == forgets[..i];
      }
    } else {
      forall i, j | 0 <= i <= j <= |forgets|
        ensures Run(s, use, rule, forgets[..i]).request <= Run(s, use, rule, forgets[..j]).request
      {
        GoesUp(s, use, rule, forgets[..j], i);
        assert forgets[..j][..i] == forgets[..i];
      }
    }
  }

  // ----- The fixed point ----------------------------------------------------------------------------

  /** Evaluation again and again, forgetting the history after each change if resizes are applied. */
  function Steps(s: State, use: nat, rule: Rule, applied: bool, n: nat): State
    requires rule.Valid()
    decreases n
  {
    if n == 0 then s
    else
      var history := Observed(s.history, use);
      Steps(Step(s, use, rule, applied && Next(s.request, use, history, rule) != s.request), use, rule, applied, n - 1)
  }

  /** Nothing moves the request any more, whatever the history. */
  predicate Settled(request: nat, use: nat, rule: Rule)
    requires rule.Valid()
  {
    !Rises(request, use) && !Falls(request, use, rule)
  }

  /** How many of the last observations, up to three, are of this usage. */
  function Warm(history: seq<nat>, use: nat): nat {
    if history == [] || history[|history| - 1] != use then 0
    else if |history| == 1 || history[|history| - 2] != use then 1
    else if |history| == 2 || history[|history| - 3] != use then 2
    else 3
  }

  /** More changes than this are not possible. */
  function Bound(request: nat, use: nat, rule: Rule): nat
    requires rule.Valid()
  {
    if Rises(request, use) then 5 * use - 4 * request else if Falls(request, use, rule) then request else 0
  }

  function Measure(s: State, use: nat, rule: Rule): nat
    requires rule.Valid()
  {
    4 * Bound(s.request, use, rule) + 3 - Warm(s.history, use)
  }

  lemma ChangeLowersBound(request: nat, use: nat, history: seq<nat>, rule: Rule)
    requires rule.Valid() && Next(request, use, history, rule) != request
    ensures Bound(Next(request, use, history, rule), use, rule) < Bound(request, use, rule)
  {
    if Rises(request, use) {
      RaisedGrows(request, rule.unit);
      RaisedNeverFalls(request, use, rule);
    } else {
      LoweredNeverRises(request, use, rule);
    }
  }

  lemma WarmGrows(history: seq<nat>, use: nat)
    requires |history| <= 3
    ensures var h := Observed(history, use);
            |h| <= 3 && Warm(h, use) == (if Warm(history, use) == 3 then 3 else Warm(history, use) + 1)
    ensures var h := Observed(history, use); Warm(h, use) == 3 ==> h == [use, use, use]
  {
    var h := Observed(history, use);
    assert h[|h| - 1] == use;
    if |history| == 0 {
    } else if |history| == 1 {
      assert h[0] == history[0];
    } else if |history| == 2 {
      assert h[0] == history[0] && h[1] == history[1];
    } else {
      assert h[0] == history[1] && h[1] == history[2];
    }
  }

  /** With a full history of this usage an unsettled request moves. */
  lemma WarmMoves(request: nat, use: nat, rule: Rule)
    requires rule.Valid() && !Settled(request, use, rule)
    ensures Next(request, use, [use, use, use], rule) != request
  {
  }

  lemma {:induction false} StepLowersMeasure(s: State, use: nat, rule: Rule, applied: bool)
    requires rule.Valid() && |s.history| <= 3 && !Settled(s.request, use, rule)
    ensures var changed := Next(s.request, use, Observed(s.history, use), rule) != s.request;
            Measure(Step(s, use, rule, applied && changed), use, rule) < Measure(s, use, rule)
  {
    var history := Observed(s.history, use);
    WarmGrows(s.history, use);
    if Next(s.request, use, history, rule) != s.request {
      ChangeLowersBound(s.request, use, history, rule);
    } else if Warm(history, use) == 3 {
      WarmMoves(s.request, use, rule);
    }
  }

  lemma {:induction false} StaysSettled(s: State, use: nat, rule: Rule, applied: bool, n: nat)
    requires rule.Valid() && Settled(s.request, use, rule)
    ensures Steps(s, use, rule, applied, n).request == s.request
    decreases n
  {
    if n > 0 { StaysSettled(Step(s, use, rule, false), use, rule, applied, n - 1); }
  }

  /** From any history, after finitely many evaluations the request is one that constant usage never
      moves again: not hot, and not low enough to shrink where shrinking is allowed. */
  lemma {:induction false} Settles(s: State, use: nat, rule: Rule, applied: bool, n: nat)
    requires rule.Valid() && |s.history| <= 3 && n >= Measure(s, use, rule)
    ensures Settled(Steps(s, use, rule, applied, n).request, use, rule)
    decreases n
  {
    if Settled(s.request, use, rule) {
      StaysSettled(s, use, rule, applied, n);
    } else {
      StepLowersMeasure(s, use, rule, applied);
      WarmGrows(s.history, use);
      var changed := Next(s.request, use, Observed(s.history, use), rule) != s.request;
      Settles(Step(s, use, rule, applied && changed), use, rule, applied, n - 1);
    }
  }

  // ----- Whole containers ---------------------------------------------------------------------------

  function MemoryRule(ctx: Context): Rule { Rule(ctx.minHot, ctx.shrinks, ctx.profile.memory, 67_108_864) }

  function CPURule(ctx: Context): Rule { Rule(ctx.minHot, ctx.shrinks, ctx.profile.cpu, 50) }

  predicate Moved(c: Container, next: Container) {
    next.cpu.request != c.cpu.request || next.memory.request != c.memory.request
  }

  /** The history an evaluation leaves: a change of either resource starts it over if it is applied. */
  function Kept(c: Container, history: seq<Usage>, use: Usage, ctx: Context, applied: bool): seq<Usage> {
    var seen := Observed(history, use);
    if applied && Moved(c, Sized(c, use, seen, ctx)) then [] else seen
  }

  /** The evaluations of a container that is sized by usage alone. */
  function Evaluations(c: Container, history: seq<Usage>, use: Usage, ctx: Context, applied: bool, n: nat): Container
    decreases n
  {
    if n == 0 then c
    else
      Evaluations(Sized(c, use, Observed(history, use), ctx), Kept(c, history, use, ctx, applied), use, ctx, applied, n - 1)
  }

  lemma ObservedParts(history: seq<Usage>, use: Usage)
    ensures CPUs(Observed(history, use)) == Observed(CPUs(history), use.cpu)
    ensures Memories(Observed(history, use)) == Observed(Memories(history), use.memory)
  {
  }

  /** Where nothing starts the history over, the two resources are sized independently. */
  lemma {:induction false} EvaluationsAreSteps(c: Container, history: seq<Usage>, use: Usage, ctx: Context, n: nat)
    requires c.cpu.request.Some? && c.memory.request.Some? && ctx.minHot <= 3
    ensures var out := Evaluations(c, history, use, ctx, false, n);
            && out.cpu.request == Some(Steps(State(c.cpu.request.value, CPUs(history)), use.cpu, CPURule(ctx), false, n).request)
            && out.memory.request
               == Some(Steps(State(c.memory.request.value, Memories(history)), use.memory, MemoryRule(ctx), false, n).request)
    decreases n
  {
    if n > 0 {
      ObservedParts(history, use);
      EvaluationsAreSteps(Sized(c, use, Observed(history, use), ctx), Observed(history, use), use, ctx, n - 1);
    }
  }

  predicate Sizable(c: Container, history: seq<Usage>, ctx: Context) {
    c.cpu.request.Some? && c.memory.request.Some? && ctx.minHot <= 3 && |history| <= 3
  }

  predicate BothSettled(c: Container, use: Usage, ctx: Context)
    requires Sizable(c, [], ctx)
  {
    Settled(c.cpu.request.value, use.cpu, CPURule(ctx)) && Settled(c.memory.request.value, use.memory, MemoryRule(ctx))
  }

  function Bounds(c: Container, use: Usage, ctx: Context): nat
    requires Sizable(c, [], ctx)
  {
    Bound(c.cpu.request.value, use.cpu, CPURule(ctx)) + Bound(c.memory.request.value, use.memory, MemoryRule(ctx))
  }

  function WarmBoth(history: seq<Usage>, use: Usage): (w: nat)
    ensures w <= 3
  {
    var c, m := Warm(CPUs(history), use.cpu), Warm(Memories(history), use.memory);
    if c < m then c else m
  }

  /** More evaluations than this are never needed to bring both resources to rest. */
  function BothMeasure(c: Container, history: seq<Usage>, use: Usage, ctx: Context): nat
    requires Sizable(c, history, ctx)
  {
    4 * Bounds(c, use, ctx) + 3 - WarmBoth(history, use)
  }

  lemma BoundNeverGrows(request: nat, use: nat, history: seq<nat>, rule: Rule)
    requires rule.Valid()
    ensures var next := Next(request, use, history, rule);
            Bound(next, use, rule) + (if next != request then 1 else 0) <= Bound(request, use, rule)
  {
    if Next(request, use, history, rule) != request { ChangeLowersBound(request, use, history, rule); }
  }

  lemma WarmBothGrows(history: seq<Usage>, use: Usage)
    requires |history| <= 3
    ensures WarmBoth(Observed(history, use), use) == if WarmBoth(history, use) == 3 then 3 else WarmBoth(history, use) + 1
    ensures WarmBoth(Observed(history, use), use) == 3 ==>
              && CPUs(Observed(history, use)) == [use.cpu, use.cpu, use.cpu]
              && Memories(Observed(history, use)) == [use.memory, use.memory, use.memory]
  {
    ObservedParts(history, use);
    WarmGrows(CPUs(history), use.cpu);
    WarmGrows(Memories(history), use.memory);
  }

  lemma {:induction false} EvaluationLowersMeasure(c: Container, history: seq<Usage>, use: Usage, ctx: Context, applied: bool)
    requires Sizable(c, history, ctx) && !BothSettled(c, use, ctx)
    ensures var next, kept := Sized(c, use, Observed(history, use), ctx), Kept(c, history, use, ctx, applied);
            Sizable(next, kept, ctx) && BothMeasure(next, kept, use, ctx) < BothMeasure(c, history, use, ctx)
  {
    var seen := Observed(history, use);
    WarmBothGrows(history, use);
    BoundNeverGrows(c.cpu.request.value, use.cpu, CPUs(seen), CPURule(ctx));
    BoundNeverGrows(c.memory.request.value, use.memory, Memories(seen), MemoryRule(ctx));
    if !Moved(c, Sized(c, use, seen, ctx)) && WarmBoth(seen, use) == 3 {
      if !Settled(c.cpu.request.value, use.cpu, CPURule(ctx)) {
        WarmMoves(c.cpu.request.value, use.cpu, CPURule(ctx));
      } else {
        WarmMoves(c.memory.request.value, use.memory, MemoryRule(ctx));
      }
    }
  }

  lemma {:induction false} StayBothSettled(c: Container, history: seq<Usage>, use: Usage, ctx: Context, applied: bool, n: nat)
    requires Sizable(c, history, ctx) && BothSettled(c, use, ctx)
    ensures Evaluations(c, history, use, ctx, applied, n).cpu.request == c.cpu.request
    ensures Evaluations(c, history, use, ctx, applied, n).memory.request == c.memory.request
    decreases n
  {
    if n > 0 {
      StayBothSettled(Sized(c, use, Observed(history, use), ctx), Kept(c, history, use, ctx, applied), use, ctx, applied, n - 1);
    }
  }

  /** Repeated evaluation under constant usage brings both requests to rest, though a change of either
      starts the history of both over. */
  lemma {:induction false} EvaluationSettles(c: Container, history: seq<Usage>, use: Usage, ctx: Context, applied: bool, n: nat)
    requires Sizable(c, history, ctx) && n >= BothMeasure(c, history, use, ctx)
    ensures var out := Evaluations(c, history, use, ctx, applied, n);
            && out.cpu.request.Some? && Settled(out.cpu.request.value, use.cpu, CPURule(ctx))
            && out.memory.request.Some? && Settled(out.memory.request.value, use.memory, MemoryRule(ctx))
    decreases n
  {
    if BothSettled(c, use, ctx) {
      StayBothSettled(c, history, use, ctx, applied, n);
    } else {
      EvaluationLowersMeasure(c, history, use, ctx, applied);
      EvaluationSettles(Sized(c, use, Observed(history, use), ctx), Kept(c, history, use, ctx, applied), use, ctx, applied, n - 1);
    }
  }

  /** When the evaluations of a container start its history over. */
  function Forgets(c: Container, history: seq<Usage>, use: Usage, ctx: Context, applied: bool, n: nat): (r: seq<bool>)
    ensures |r| == n
    decreases n
  {
    if n == 0 then []
    else
      var next := Sized(c, use, Observed(history, use), ctx);
      [applied && Moved(c, next)] + Forgets(next, Kept(c, history, use, ctx, applied), use, ctx, applied, n - 1)
  }

  lemma {:induction false} ForgetsBefore(c: Container, history: seq<Usage>, use: Usage, ctx: Context, applied: bool, i: nat, n: nat)
    requires i <= n
    ensures Forgets(c, history, use, ctx, applied, n)[..i] == Forgets(c, history, use, ctx, applied, i)
    decreases n
  {
    if i > 0 {
      ForgetsBefore(Sized(c, use, Observed(history, use), ctx), Kept(c, history, use, ctx, applied), use, ctx, applied, i - 1, n - 1);
    }
  }

  lemma {:induction false} RunCons(s: State, use: nat, rule: Rule, forget: bool, rest: seq<bool>)
    requires rule.Valid()
    ensures Run(s, use, rule, [forget] + rest) == Run(Step(s, use, rule, forget), use, rule, rest)
  {
    var all, n := [forget] + rest, |rest|;
    if rest == [] {
      assert all[..n] == [] && all[n] == forget;
    } else {
      RunCons(s, use, rule, forget, rest[..n - 1]);
      assert all[..n] == [forget] + rest[..n - 1] && all[n] == rest[n - 1];
    }
  }

  function CPUState(c: Container, history: seq<Usage>): State { State(Or(c.cpu.request), CPUs(history)) }

  function MemoryState(c: Container, history: seq<Usage>): State { State(Or(c.memory.request), Memories(history)) }

  /** One evaluation is a step of either resource's rule, forgetting when the container does. */
  lemma EvaluationIsStep(c: Container, history: seq<Usage>, use: Usage, ctx: Context, applied: bool)
    requires c.cpu.request.Some? && c.memory.request.Some? && ctx.minHot <= 3
    ensures var next, kept := Sized(c, use, Observed(history, use), ctx), Kept(c, history, use, ctx, applied);
            var forget := applied && Moved(c, next);
            && next.cpu.request.Some? && next.memory.request.Some?
            && CPUState(next, kept) == Step(CPUState(c, history), use.cpu, CPURule(ctx), forget)
            && MemoryState(next, kept) == Step(MemoryState(c, history), use.memory, MemoryRule(ctx), forget)
  {
    ObservedParts(history, use);
  }

  lemma NextEvaluation(c: Container, history: seq<Usage>, use: Usage, ctx: Context, applied: bool, n: nat)
    requires n > 0
    ensures var next, kept := Sized(c, use, Observed(history, use), ctx), Kept(c, history, use, ctx, applied);
            && Evaluations(c, history, use, ctx, applied, n) == Evaluations(next, kept, use, ctx, applied, n - 1)
            && Forgets(c, history, use, ctx, applied, n)
               == [applied && Moved(c, next)] + Forgets(next, kept, use, ctx, applied, n - 1)
  {
  }

  /** The requests of a container are those of the two resources after these steps. */
  predicate Agree(out: Container, cpu: State, memory: State, use: Usage, ctx: Context, forgets: seq<bool>)
    requires ctx.minHot <= 3
  {
    && Or(out.cpu.request) == Run(cpu, use.cpu, CPURule(ctx), forgets).request
    && Or(out.memory.request) == Run(memory, use.memory, MemoryRule(ctx), forgets).request
  }

  lemma AgreeCons(out: Container, cpu: State, cpu': State, memory: State, memory': State, use: Usage, ctx: Context,
                  forget: bool, rest: seq<bool>)
    requires ctx.minHot <= 3 && Agree(out, cpu', memory', use, ctx, rest)
    requires cpu' == Step(cpu, use.cpu, CPURule(ctx), forget) && memory' == Step(memory, use.memory, MemoryRule(ctx), forget)
    ensures Agree(out, cpu, memory, use, ctx, [forget] + rest)
  {
    RunCons(cpu, use.cpu, CPURule(ctx), forget, rest);
    RunCons(memory, use.memory, MemoryRule(ctx), forget, rest);
  }

  /** Whatever starts the shared history over, each resource goes by its own rule. */
  lemma {:induction false} EvaluationsAreRuns(c: Container, history: seq<Usage>, use: Usage, ctx: Context, applied: bool, n: nat)
    requires c.cpu.request.Some? && c.memory.request.Some? && ctx.minHot <= 3
    ensures Agree(Evaluations(c, history, use, ctx, applied, n), CPUState(c, history), MemoryState(c, history), use, ctx,
                  Forgets(c, history, use, ctx, applied, n))
    decreases n
  {
    if n > 0 {
      var next, kept := Sized(c, use, Observed(history, use), ctx), Kept(c, history, use, ctx, applied);
      EvaluationIsStep(c, history, use, ctx, applied);
      EvaluationsAreRuns(next, kept, use, ctx, applied, n - 1);
      NextEvaluation(c, history, use, ctx, applied, n);
      AgreeCons(Evaluations(next, kept, use, ctx, applied, n - 1), CPUState(c, history), CPUState(next, kept),
                MemoryState(c, history), MemoryState(next, kept), use, ctx, applied && Moved(c, next),
                Forgets(next, kept, use, ctx, applied, n - 1));
    }
  }

  /** The requests after so many evaluations. */
  function CPUAfter(c: Container, history: seq<Usage>, use: Usage, ctx: Context, applied: bool, n: nat): nat {
    Or(Evaluations(c, history, use, ctx, applied, n).cpu.request)
  }

  function MemoryAfter(c: Container, history: seq<Usage>, use: Usage, ctx: Context, applied: bool, n: nat): nat {
    Or(Evaluations(c, history, use, ctx, applied, n).memory.request)
  }

  /** Under constant usage a container's CPU request moves in one direction only, and so does its memory
      request, though a change of either starts the history of both over. */
  lemma {:induction false} EvaluationsNeverFlap(c: Container, history: seq<Usage>, use: Usage, ctx: Context, applied: bool, n: nat)
    requires c.cpu.request.Some? && c.memory.request.Some? && ctx.minHot <= 3
    ensures (forall i, j :: 0 <= i <= j <= n ==>
               CPUAfter(c, history, use, ctx, applied, i) <= CPUAfter(c, history, use, ctx, applied, j))
            || (forall i, j :: 0 <= i <= j <= n ==>
                  CPUAfter(c, history, use, ctx, applied, i) >= CPUAfter(c, history, use, ctx, applied, j))
    ensures (forall i, j :: 0 <= i <= j <= n ==>
               MemoryAfter(c, history, use, ctx, applied, i) <= MemoryAfter(c, history, use, ctx, applied, j))
            || (forall i, j :: 0 <= i <= j <= n ==>
                  MemoryAfter(c, history, use, ctx, applied, i) >= MemoryAfter(c, history, use, ctx, applied, j))
  {
    var forgets := Forgets(c, history, use, ctx, applied, n);
    var cpu, memory := CPUState(c, history), MemoryState(c, history);
    forall i | 0 <= i <= n
      ensures CPUAfter(c, history, use, ctx, applied, i) == Run(cpu, use.cpu, CPURule(ctx), forgets[..i]).request
      ensures MemoryAfter(c, history, use, ctx, applied, i) == Run(memory, use.memory, MemoryRule(ctx), forgets[..i]).request
    {
      EvaluationsAreRuns(c, history, use, ctx, applied, i);
      ForgetsBefore(c, history, use, ctx, applied, i, n);
    }
    NoFlapping(cpu, use.cpu, CPURule(ctx), forgets);
    NoFlapping(memory, use.memory, MemoryRule(ctx), forgets);
  }

  // ----- Requests stay within limits ----------------------------------------------------------------

  predicate Within(p: Pair) { p.request.Some? && p.limit.Some? ==> p.request.value <= p.limit.value }

  /** No evaluation leaves a request above its limit, by usage or after an out-of-memory kill. */
  lemma {:induction false} LimitsCover(c: Container, use: Usage, history: seq<Usage>, ctx: Context)
    requires Within(c.cpu) && Within(c.memory)
    ensures Within(Sized(c, use, history, ctx).cpu) && Within(Sized(c, use, history, ctx).memory)
  {
  }

  lemma {:induction false} DefaultsWithin(profile: string)
    ensures ProfileDefaults(profile).cpu <= ProfileDefaults(profile).cpuLimit
  {
  }

  /** The answer to an out-of-memory kill is more than before unless the cap is reached, and never
      more than twice as much or the cap, but for the rounding. */
  lemma {:induction false} OOMRaiseBounds(p: Pair, cap: nat)
    ensures var base := OOMBase(p);
            && OOMRaise(base, cap) < (if 2 * base > cap then cap else 2 * base) + 67_108_864
            && (OOMRaise(base, cap) <= base ==> cap <= base)
            && (cap > base ==> OOMRaise(base, cap) > Or(p.request) && OOMRaise(base, cap) > Or(p.limit))
  {
    var base := OOMBase(p);
    RoundUpBounds(if 2 * base > cap then cap else 2 * base, 67_108_864);
  }
}
