/** Automatic sizing of one workload: console-api/controller/resource_controller.go, evaluate with its
    rounding and profile defaults. CPU is millicores, memory bytes, times seconds; shares are compared
    as exact integers. The saturation shortcut is not taken. */
module Sizing {
  import opened Wrappers
  import Text

  function RoundUp(n: nat, unit: nat): nat
    requires unit > 0
  {
    (n + unit - 1) / unit * unit
  }

  datatype Profile = Profile(cpu: nat, cpuLimit: nat, memory: nat)

  function Mebibytes(n: nat): nat { n * 1_048_576 }

  function ProfileDefaults(profile: string): Profile {
    var name := Text.Lower(profile);
    if name == "lightweight" then Profile(50, 50, Mebibytes(64))
    else if name == "compute-heavy" then Profile(500, 500, Mebibytes(256))
    else if name == "memory-heavy" then Profile(100, 100, Mebibytes(512))
    else if name == "jvm" then Profile(100, 500, Mebibytes(2048))
    else if name == "database" then Profile(500, 500, Mebibytes(1024))
    else Profile(100, 100, Mebibytes(128))
  }

  /** The request and limit of one resource, as far as they are set. */
  datatype Pair = Pair(request: Option<nat>, limit: Option<nat>)

  datatype Container = Container(cpu: Pair, memory: Pair)

  predicate Bare(c: Container) { c == Container(Pair(None, None), Pair(None, None)) }

  datatype Usage = Usage(cpu: nat, memory: nat)

  /** A pod's usage, its age, its last out-of-memory kill, and whether it stands for a pod that has no
      metrics. */
  datatype Pod = Pod(usage: Usage, age: nat, oomAt: Option<int>, synthetic: bool)

  /** What one evaluation is given besides usage: `minHot` observations allow an increase, and
      `shrinks` says that decreases are allowed at all. */
  datatype Context = Context(profile: Profile, minHot: nat, shrinks: bool, oomCap: nat)

  // ----- One resource -------------------------------------------------------------------------------

  predicate Hot(use: nat, request: nat) { 100 * use > 80 * request }

  predicate Cool(use: nat, request: nat) { 100 * use < 20 * request }

  function Raised(request: nat, unit: nat): nat
    requires unit > 0
  {
    RoundUp((3 * request + 1) / 2, unit)
  }

  function Lowered(request: nat, floor: nat, unit: nat): nat
    requires unit > 0
  {
    var half := (request + 1) / 2;
    RoundUp(if half < floor then floor else half, unit)
  }

  /** A request after one evaluation: up when hot throughout the history, down when cool throughout a
      full history and lower is possible. */
  function NextRequest(request: nat, use: nat, history: seq<nat>, minHot: nat, shrinks: bool, floor: nat, unit: nat): nat
    requires unit > 0
  {
    if request == 0 then 0
    else if Hot(use, request) && |history| >= minHot && AllHot(history, request) then Raised(request, unit)
    else if Cool(use, request) && |history| >= 3 && AllCool(history, request) && shrinks && Lowered(request, floor, unit) < request
    then Lowered(request, floor, unit)
    else request
  }

  predicate AllHot(history: seq<nat>, request: nat) { forall i :: 0 <= i < |history| ==> Hot(history[i], request) }

  predicate AllCool(history: seq<nat>, request: nat) { forall i :: 0 <= i < |history| ==> Cool(history[i], request) }

  function Wider(limit: Option<nat>, request: nat): nat {
    if limit.None? || request > limit.value then request else limit.value
  }

  /** The pair with its next request: an increase keeps a higher limit, a decrease brings the limit
      down to the request, but not below `minLimit`. */
  function Resized(p: Pair, next: nat, minLimit: nat): Pair {
    if p.request.None? || p.request.value == next then p
    else if next > p.request.value then Pair(Some(next), Some(Wider(p.limit, next)))
    else Pair(Some(next), Some(if next < minLimit then minLimit else next))
  }

  function CPUs(history: seq<Usage>): seq<nat> { seq(|history|, i requires 0 <= i < |history| => history[i].cpu) }

  function Memories(history: seq<Usage>): seq<nat> { seq(|history|, i requires 0 <= i < |history| => history[i].memory) }

  function NextMemory(request: nat, use: nat, history: seq<Usage>, ctx: Context): nat {
    NextRequest(request, use, Memories(history), ctx.minHot, ctx.shrinks, ctx.profile.memory, 67_108_864)
  }

  function NextCPU(request: nat, use: nat, history: seq<Usage>, ctx: Context): nat {
    NextRequest(request, use, CPUs(history), ctx.minHot, ctx.shrinks, ctx.profile.cpu, 50)
  }

  function Sized(c: Container, use: Usage, history: seq<Usage>, ctx: Context): Container {
    Container(if c.cpu.request.None? then c.cpu
              else Resized(c.cpu, NextCPU(c.cpu.request.value, use.cpu, history, ctx), ctx.profile.cpuLimit),
              if c.memory.request.None? then c.memory
              else Resized(c.memory, NextMemory(c.memory.request.value, use.memory, history, ctx), 0))
  }

  // ----- One evaluation -----------------------------------------------------------------------------

  function Or(n: Option<nat>): nat { if n.Some? then n.value else 0 }

  /** The memory an out-of-memory kill is answered from: the larger of request and limit. */
  function OOMBase(p: Pair): nat {
    var base := if Or(p.limit) > Or(p.request) then Or(p.limit) else Or(p.request);
    if base == 0 then 134_217_728 else base
  }

  function OOMRaise(base: nat, cap: nat): nat { RoundUp(if 2 * base > cap then cap else 2 * base, 67_108_864) }

  function NewestOOM(pods: seq<Pod>): Option<int> {
    if pods == [] then None
    else
      var rest := NewestOOM(pods[..|pods| - 1]);
      var at := pods[|pods| - 1].oomAt;
      if at.Some? && (rest.None? || at.value > rest.value) then at else rest
  }

  /** The pods whose usage counts. */
  function Mature(pods: seq<Pod>): seq<Pod> {
    if pods == [] then []
    else
      var rest := Mature(pods[..|pods| - 1]);
      var p := pods[|pods| - 1];
      if !p.synthetic && p.age >= 300 then rest + [p] else rest
  }

  function Total(pods: seq<Pod>): Usage {
    if pods == [] then Usage(0, 0)
    else
      var rest := Total(pods[..|pods| - 1]);
      var use := pods[|pods| - 1].usage;
      Usage(rest.cpu + use.cpu, rest.memory + use.memory)
  }

  function Average(pods: seq<Pod>): Usage
    requires pods != []
  {
    Share(Total(pods), |pods|)
  }

  function Share(sum: Usage, n: nat): Usage
    requires n > 0
  {
    Usage(sum.cpu / n, sum.memory / n)
  }

  /** The last three observations. */
  function Observed<T>(history: seq<T>, use: T): seq<T> {
    if |history| >= 3 then history[|history| - 2..] + [use] else history + [use]
  }

  predicate Actionable(newest: Option<int>, handledAt: Option<int>, now: int) {
    newest.Some? && (handledAt.None? || newest.value > handledAt.value) && now - newest.value < 1_800
  }

  class Sizer {
    var history: seq<Usage>
    var handledAt: Option<int>

    constructor ()
      ensures history == [] && handledAt == None
    {
      history, handledAt := [], None;
    }

    method NewOOM(pods: seq<Pod>, now: int) returns (mark: Option<int>)
      ensures mark == if Actionable(NewestOOM(pods), handledAt, now) then NewestOOM(pods) else None
    {
      var newest: Option<int> := None;
      for i := 0 to |pods|
        invariant newest == NewestOOM(pods[..i])
      {
        assert pods[..i + 1][..i] == pods[..i];
        if pods[i].oomAt.Some? && (newest.None? || pods[i].oomAt.value > newest.value) { newest := pods[i].oomAt; }
      }
      assert pods[..|pods|] == pods;
      mark := if Actionable(newest, handledAt, now) then newest else None;
    }

    method AverageUsage(pods: seq<Pod>) returns (use: Option<Usage>)
      ensures use == if Mature(pods) == [] then None else Some(Average(Mature(pods)))
    {
      var sum, n := Usage(0, 0), 0;
      for i := 0 to |pods|
        invariant Summed(pods[..i], sum, n)
      {
        assert pods[..i] + [pods[i]] == pods[..i + 1];
        var p := pods[i];
        if !p.synthetic && p.age >= 300 { sum, n := Usage(sum.cpu + p.usage.cpu, sum.memory + p.usage.memory), n + 1; }
      }
      assert pods[..|pods|] == pods;
      if n == 0 { return None; }
      return Some(Share(sum, n));
    }

    /** Proposes resources from usage. A fresh out-of-memory kill is answered before anything else;
        otherwise the history takes one observation and each request moves at most one step. */
    method Evaluate(c: Container, pods: seq<Pod>, ctx: Context, now: int) returns (out: Container, mark: Option<int>)
      modifies this`history
      ensures Bare(c) ==>
                out == Container(Pair(Some(ctx.profile.cpu), Some(ctx.profile.cpuLimit)),
                                 Pair(Some(ctx.profile.memory), Some(ctx.profile.memory)))
                && history == old(history) && mark == None
      ensures !Bare(c) ==> mark == if Actionable(NewestOOM(pods), handledAt, now) then NewestOOM(pods) else None
      ensures !Bare(c) && mark.Some? ==>
                history == old(history) && out.cpu == c.cpu
                && var base, raise := OOMBase(c.memory), OOMRaise(OOMBase(c.memory), ctx.oomCap);
                   out.memory == if raise <= base then c.memory else Pair(Some(raise), Some(raise))
      ensures !Bare(c) && mark.None? && Mature(pods) == [] ==> out == c && history == old(history)
      ensures !Bare(c) && mark.None? && Mature(pods) != [] ==>
                var use := Average(Mature(pods));
                history == Observed(old(history), use) && out == Sized(c, use, history, ctx)
    {
      mark := None;
      out := c;
      if Bare(c) {
        out := Container(Pair(Some(ctx.profile.cpu), Some(ctx.profile.cpuLimit)),
                         Pair(Some(ctx.profile.memory), Some(ctx.profile.memory)));
        return;
      }
      mark := NewOOM(pods, now);
      if mark.Some? {
        var base := if Or(c.memory.limit) > Or(c.memory.request) then Or(c.memory.limit) else Or(c.memory.request);
        if base == 0 { base := 134_217_728; }
        var bytes := base * 2;
        if bytes > ctx.oomCap { bytes := ctx.oomCap; }
        var rounded := RoundUp(bytes, 67_108_864);
        if rounded <= base { return; }
        out := c.(memory := Pair(Some(rounded), Some(rounded)));
        return;
      }
      var use := AverageUsage(pods);
      if use.None? { return; }
      history := history + [use.value];
      if |history| > 3 { history := history[|history| - 3..]; }
      var memory := SizeMemory(c.memory, use.value.memory, Memories(history), ctx);
      var cpu := SizeCPU(c.cpu, use.value.cpu, CPUs(history), ctx);
      out := Container(cpu, memory);
    }
  }

  predicate Summed(pods: seq<Pod>, sum: Usage, n: nat) { n == |Mature(pods)| && sum == Total(Mature(pods)) }

  method SizeMemory(p: Pair, use: nat, history: seq<nat>, ctx: Context) returns (out: Pair)
    ensures out == if p.request.None? then p
                   else
                     var next := NextRequest(p.request.value, use, history, ctx.minHot, ctx.shrinks, ctx.profile.memory, 67_108_864);
                     Resized(p, next, 0)
  {
    out := p;
    if p.request.Some? && p.request.value > 0 {
      var request := p.request.value;
      var hot := ConsistentHigh(history, request);
      var cool := ConsistentLow(history, request);
      if Hot(use, request) && |history| >= ctx.minHot && hot {
        var next := RoundUp((3 * request + 1) / 2, 67_108_864);
        RaisedGrows(request, 67_108_864);
        out := Pair(Some(next), Some(Wider(p.limit, next)));
      } else if Cool(use, request) && |history| >= 3 && cool && ctx.shrinks {
        var half := (request + 1) / 2;
        if half < ctx.profile.memory { half := ctx.profile.memory; }
        var next := RoundUp(half, 67_108_864);
        if next < request { out := Pair(Some(next), Some(next)); }
      }
    }
  }

  method SizeCPU(p: Pair, use: nat, history: seq<nat>, ctx: Context) returns (out: Pair)
    ensures out == if p.request.None? then p
                   else
                     var next := NextRequest(p.request.value, use, history, ctx.minHot, ctx.shrinks, ctx.profile.cpu, 50);
                     Resized(p, next, ctx.profile.cpuLimit)
  {
    out := p;
    if p.request.Some? && p.request.value > 0 {
      var request := p.request.value;
      var hot := ConsistentHigh(history, request);
      var cool := ConsistentLow(history, request);
      if Hot(use, request) && |history| >= ctx.minHot && hot {
        var next := RoundUp((3 * request + 1) / 2, 50);
        RaisedGrows(request, 50);
        out := Pair(Some(next), Some(Wider(p.limit, next)));
      } else if Cool(use, request) && |history| >= 3 && cool && ctx.shrinks {
        var half := (request + 1) / 2;
        if half < ctx.profile.cpu { half := ctx.profile.cpu; }
        var next := RoundUp(half, 50);
        if next < request {
          out := Pair(Some(next), Some(if next < ctx.profile.cpuLimit then ctx.profile.cpuLimit else next));
        }
      }
    }
  }

  method ConsistentHigh(history: seq<nat>, request: nat) returns (hot: bool)
    ensures hot == AllHot(history, request)
  {
    for i := 0 to |history|
      invariant AllHot(history[..i], request)
    {
      if !Hot(history[i], request) { return false; }
    }
    assert history[..|history|] == history;
    hot := true;
  }

  method ConsistentLow(history: seq<nat>, request: nat) returns (cool: bool)
    ensures cool == AllCool(history, request)
  {
    for i := 0 to |history|
      invariant AllCool(history[..i], request)
    {
      if !Cool(history[i], request) { return false; }
    }
    assert history[..|history|] == history;
    cool := true;
  }

  lemma {:induction false} RoundUpBounds(n: nat, unit: nat)
    requires unit > 0
    ensures n <= RoundUp(n, unit) < n + unit
  {
    var q, r := (n + unit - 1) / unit, (n + unit - 1) % unit;
    assert n + unit - 1 == q * unit + r;
  }

  lemma {:induction false} RaisedGrows(request: nat, unit: nat)
    requires unit > 0 && request > 0
    ensures Raised(request, unit) > request
  {
    RoundUpBounds((3 * request + 1) / 2, unit);
  }
}
