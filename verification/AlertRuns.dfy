/** The alert protocol over whole runs: arbitrary alerts, failed writes, deferrals and evictions. */
module AlertRuns {
  import opened Wrappers
  import opened Alerts

  /** A commit and why it was allowed: the batch's own alert was accepted, or, for an episode that
      began at `since`, an alert in the store covers it. */
  datatype Commit = Commit(batch: Batch, since: Option<int>)

  datatype World = World(state: Suppression, entries: seq<Entry>, commits: seq<Commit>)

  /** What a tick meets. `cleared` are the slots that recovery or age forgets, and `lost` the stored
      alerts that are no longer there to be read, all of them when the read fails. */
  datatype Input = Input(cleared: set<Slot>, lost: set<Entry>, first: seq<Batch>, due: seq<AlertEpisode>,
                         last: seq<Batch>, ok: bool)

  function View(entries: seq<Entry>, lost: set<Entry>): seq<Entry> {
    if entries == [] then []
    else
      var rest := View(entries[..|entries| - 1], lost);
      if entries[|entries| - 1] in lost then rest else rest + [entries[|entries| - 1]]
  }

  function CoveredCommits(view: seq<Entry>, due: seq<AlertEpisode>): seq<Commit> {
    if due == [] then []
    else
      var rest := CoveredCommits(view, due[..|due| - 1]);
      var ep := due[|due| - 1];
      if Stored(view, ep) then rest + [Commit(ep.batch, Some(ep.since))] else rest
  }

  function Accepted(batches: seq<Batch>): seq<Commit> {
    seq(|batches|, i requires 0 <= i < |batches| => Commit(batches[i], None))
  }

  /** One tick, as ResourceController.Tick does it. */
  function Step(w: World, input: Input, max: nat): World {
    var view := View(w.entries, input.lost);
    var kept := CapBatches(input.first + Unstored(view, input.due) + input.last, max);
    var after := CommitAll(w.state - input.cleared, Covered(view, input.due));
    var told := w.commits + CoveredCommits(view, input.due);
    if input.ok then World(CommitAll(after, kept), w.entries + EntriesOf(kept), told + Accepted(kept))
    else World(after, w.entries, told)
  }

  /** A process starts with no suppression and whatever alerts earlier ones have stored. */
  function Run(prior: seq<Entry>, inputs: seq<Input>, max: nat): World {
    if inputs == [] then World(map[], prior, [])
    else Step(Run(prior, inputs[..|inputs| - 1], max), inputs[|inputs| - 1], max)
  }

  // ----- Nothing is suppressed that was not delivered -----------------------------------------------

  predicate Carries(b: Batch, slot: Slot, v: Value) {
    || (exists i :: 0 <= i < |b.marks| && !b.marks[i].del && b.marks[i].slot == slot && v == Time(b.marks[i].at))
    || (exists i :: 0 <= i < |b.apply| && b.apply[i] == Put(slot, v))
  }

  predicate Delivered(entries: seq<Entry>, c: Commit) {
    if c.since.None? then c.batch.entry in entries
    else exists i :: 0 <= i < |entries| && Covers(entries[i], c.batch.entry, c.since.value)
  }

  ghost predicate Backed(commits: seq<Commit>, slot: Slot, v: Value) {
    exists i :: 0 <= i < |commits| && Carries(commits[i].batch, slot, v)
  }

  ghost predicate Good(w: World) {
    && (forall i :: 0 <= i < |w.commits| ==> Delivered(w.entries, w.commits[i]))
    && (forall slot :: slot in w.state ==> Backed(w.commits, slot, w.state[slot]))
  }

  lemma {:induction false} MarksCarry(s: Suppression, marks: seq<Mark>, slot: Slot)
    requires slot in AllMarked(s, marks)
    ensures (slot in s && AllMarked(s, marks)[slot] == s[slot])
            || exists i :: 0 <= i < |marks| && !marks[i].del && marks[i].slot == slot
                           && AllMarked(s, marks)[slot] == Time(marks[i].at)
  {
    if marks != [] {
      var m := marks[|marks| - 1];
      if slot != m.slot { MarksCarry(s, marks[..|marks| - 1], slot); }
    }
  }

  lemma {:induction false} ChangesCarry(s: Suppression, apply: seq<Change>, slot: Slot)
    requires slot in AllChanged(s, apply)
    ensures (slot in s && AllChanged(s, apply)[slot] == s[slot])
            || exists i :: 0 <= i < |apply| && apply[i] == Put(slot, AllChanged(s, apply)[slot])
  {
    if apply != [] {
      var c := apply[|apply| - 1];
      if slot != c.slot { ChangesCarry(s, apply[..|apply| - 1], slot); }
      else { assert c == Put(slot, c.value); }
    }
  }

  lemma CommitCarries(s: Suppression, b: Batch, slot: Slot)
    requires slot in CommitOne(s, b)
    ensures (slot in s && CommitOne(s, b)[slot] == s[slot]) || Carries(b, slot, CommitOne(s, b)[slot])
  {
    var marked := AllMarked(s, b.marks);
    ChangesCarry(marked, b.apply, slot);
    if slot in marked && CommitOne(s, b)[slot] == marked[slot] { MarksCarry(s, b.marks, slot); }
  }

  lemma {:induction false} CommitsCarry(s: Suppression, batches: seq<Batch>, slot: Slot)
    requires slot in CommitAll(s, batches)
    ensures (slot in s && CommitAll(s, batches)[slot] == s[slot])
            || exists i :: 0 <= i < |batches| && Carries(batches[i], slot, CommitAll(s, batches)[slot])
  {
    if batches != [] {
      var n := |batches| - 1;
      var before := CommitAll(s, batches[..n]);
      CommitCarries(before, batches[n], slot);
      if slot in before && before[slot] == CommitAll(s, batches)[slot] {
        CommitsCarry(s, batches[..n], slot);
      } else {
        assert Carries(batches[n], slot, CommitAll(s, batches)[slot]);
      }
    }
  }

  lemma {:induction false} CoveredAligned(view: seq<Entry>, due: seq<AlertEpisode>)
    ensures |CoveredCommits(view, due)| == |Covered(view, due)|
    ensures forall i :: 0 <= i < |Covered(view, due)| ==> CoveredCommits(view, due)[i].batch == Covered(view, due)[i]
  {
    if due != [] { CoveredAligned(view, due[..|due| - 1]); }
  }

  lemma {:induction false} ViewIsStored(entries: seq<Entry>, lost: set<Entry>, i: nat)
    requires i < |View(entries, lost)|
    ensures View(entries, lost)[i] in entries
  {
    if entries != [] {
      var rest := View(entries[..|entries| - 1], lost);
      if i < |rest| { ViewIsStored(entries[..|entries| - 1], lost, i); }
    }
  }

  lemma {:induction false} CoveredDelivered(entries: seq<Entry>, lost: set<Entry>, due: seq<AlertEpisode>, i: nat)
    requires i < |CoveredCommits(View(entries, lost), due)|
    ensures Delivered(entries, CoveredCommits(View(entries, lost), due)[i])
  {
    var view := View(entries, lost);
    var ep := due[|due| - 1];
    if i < |CoveredCommits(view, due[..|due| - 1])| {
      CoveredDelivered(entries, lost, due[..|due| - 1], i);
    } else {
      var j :| 0 <= j < |view| && Covers(view[j], ep.batch.entry, ep.since);
      ViewIsStored(entries, lost, j);
    }
  }

  lemma DeliveredLater(entries: seq<Entry>, more: seq<Entry>, c: Commit)
    requires Delivered(entries, c)
    ensures Delivered(entries + more, c)
  {
    if c.since.Some? {
      var i :| 0 <= i < |entries| && Covers(entries[i], c.batch.entry, c.since.value);
      assert (entries + more)[i] == entries[i];
    }
  }

  /** Committing batches that are all recorded as commits keeps every slot backed. */
  lemma BackedAfter(s: Suppression, commits: seq<Commit>, batches: seq<Batch>, more: seq<Commit>)
    requires forall slot :: slot in s ==> Backed(commits, slot, s[slot])
    requires |more| == |batches| && forall i :: 0 <= i < |batches| ==> more[i].batch == batches[i]
    ensures forall slot :: slot in CommitAll(s, batches) ==> Backed(commits + more, slot, CommitAll(s, batches)[slot])
  {
    var after := CommitAll(s, batches);
    forall slot | slot in after ensures Backed(commits + more, slot, after[slot]) {
      CommitsCarry(s, batches, slot);
      if slot in s && after[slot] == s[slot] {
        var i :| 0 <= i < |commits| && Carries(commits[i].batch, slot, s[slot]);
        assert (commits + more)[i] == commits[i];
      } else {
        var i :| 0 <= i < |batches| && Carries(batches[i], slot, after[slot]);
        assert (commits + more)[|commits| + i] == more[i];
      }
    }
  }

  lemma CoveredOk(w: World, cleared: set<Slot>, lost: set<Entry>, due: seq<AlertEpisode>)
    requires Good(w)
    ensures var view := View(w.entries, lost);
            Good(World(CommitAll(w.state - cleared, Covered(view, due)), w.entries, w.commits + CoveredCommits(view, due)))
  {
    var view := View(w.entries, lost);
    CoveredAligned(view, due);
    BackedAfter(w.state - cleared, w.commits, Covered(view, due), CoveredCommits(view, due));
    var told := w.commits + CoveredCommits(view, due);
    forall i | 0 <= i < |told| ensures Delivered(w.entries, told[i]) {
      if i >= |w.commits| { CoveredDelivered(w.entries, lost, due, i - |w.commits|); }
    }
  }

  lemma AcceptedOk(w: World, kept: seq<Batch>)
    requires Good(w)
    ensures Good(World(CommitAll(w.state, kept), w.entries + EntriesOf(kept), w.commits + Accepted(kept)))
  {
    BackedAfter(w.state, w.commits, kept, Accepted(kept));
    var entries := w.entries + EntriesOf(kept);
    var told := w.commits + Accepted(kept);
    forall i | 0 <= i < |told| ensures Delivered(entries, told[i]) {
      if i < |w.commits| {
        DeliveredLater(w.entries, EntriesOf(kept), w.commits[i]);
      } else {
        assert EntriesOf(kept)[i - |w.commits|] == told[i].batch.entry;
      }
    }
  }

  lemma {:induction false} RunOk(prior: seq<Entry>, inputs: seq<Input>, max: nat)
    ensures Good(Run(prior, inputs, max))
  {
    if inputs != [] {
      var w := Run(prior, inputs[..|inputs| - 1], max);
      var input := inputs[|inputs| - 1];
      RunOk(prior, inputs[..|inputs| - 1], max);
      CoveredOk(w, input.cleared, input.lost, input.due);
      var view := View(w.entries, input.lost);
      var after := World(CommitAll(w.state - input.cleared, Covered(view, input.due)), w.entries,
                         w.commits + CoveredCommits(view, input.due));
      AcceptedOk(after, CapBatches(input.first + Unstored(view, input.due) + input.last, max));
    }
  }

  /** In every run, whatever a slot of suppression state holds was put there by a commit of an alert
      that carries it and that the store accepted, or already held for the same episode. */
  lemma {:induction false} NoSilentSuppression(prior: seq<Entry>, inputs: seq<Input>, max: nat, slot: Slot)
    requires slot in Run(prior, inputs, max).state
    ensures var w := Run(prior, inputs, max);
            exists i :: 0 <= i < |w.commits| && Carries(w.commits[i].batch, slot, w.state[slot])
                        && Delivered(w.entries, w.commits[i])
  {
    RunOk(prior, inputs, max);
    var w := Run(prior, inputs, max);
    var i :| 0 <= i < |w.commits| && Carries(w.commits[i].batch, slot, w.state[slot]);
    assert Delivered(w.entries, w.commits[i]);
  }

  // ----- A backlog drains ---------------------------------------------------------------------------

  /** A lasting problem, alerted at most once in a cooldown. */
  datatype Problem = Problem(slot: Slot, cooldown: int, entry: Entry)

  predicate Due(s: Suppression, p: Problem, now: int) {
    !(p.slot in s && s[p.slot].Time? && now - s[p.slot].at < p.cooldown)
  }

  /** The alert says the second it was built in. */
  function BatchOf(p: Problem, now: int): Batch {
    Batch(p.entry.(at := Some(now / 1_000_000_000)), [Mark(p.slot, now, false)], [])
  }

  function Staged(s: Suppression, problems: seq<Problem>, now: int): seq<Batch> {
    if problems == [] then []
    else
      var rest := Staged(s, problems[..|problems| - 1], now);
      if Due(s, problems[|problems| - 1], now) then rest + [BatchOf(problems[|problems| - 1], now)] else rest
  }

  /** The alerts of the problems whose cooldown is over, as the failed-job check builds them. */
  method StageDue(s: Suppression, problems: seq<Problem>, now: int) returns (batches: seq<Batch>)
    ensures batches == Staged(s, problems, now)
  {
    batches := [];
    for i := 0 to |problems|
      invariant batches == Staged(s, problems[..i], now)
    {
      assert problems[..i + 1][..i] == problems[..i];
      var p := problems[i];
      if p.slot in s && s[p.slot].Time? && now - s[p.slot].at < p.cooldown { continue; }
      batches := batches + [BatchOf(p, now)];
    }
    assert problems[..|problems|] == problems;
  }

  datatype Write = Write(at: int, ok: bool)

  /** A tick that meets these problems and nothing else. */
  function BacklogInput(w: World, problems: seq<Problem>, write: Write): Input {
    Input({}, {}, Staged(w.state, problems, write.at), [], [], write.ok)
  }

  /** The run `inputs`, and then ticks that meet these problems. */
  function Backlog(prior: seq<Entry>, inputs: seq<Input>, problems: seq<Problem>, writes: seq<Write>, max: nat): seq<Input> {
    if writes == [] then inputs
    else
      var before := Backlog(prior, inputs, problems, writes[..|writes| - 1], max);
      before + [BacklogInput(Run(prior, before, max), problems, writes[|writes| - 1])]
  }

  function Successes(writes: seq<Write>): nat {
    if writes == [] then 0 else Successes(writes[..|writes| - 1]) + (if writes[|writes| - 1].ok then 1 else 0)
  }

  /** How many problems `done` writes of `max` alerts leave. */
  function Left(problems: nat, done: nat, max: nat): nat {
    if done == 0 then problems else Less(Left(problems, done - 1, max), max)
  }

  function Less(n: nat, max: nat): nat { if n <= max then 0 else n - max }

  /** The first `left` problems are untold and the others were told at `start` or later. */
  predicate Pending(s: Suppression, problems: seq<Problem>, left: nat, start: int) {
    forall i :: 0 <= i < |problems| ==>
      if i < left then problems[i].slot !in s
      else problems[i].slot in s && s[problems[i].slot].Time? && s[problems[i].slot].at >= start
  }

  predicate Distinct(problems: seq<Problem>) {
    forall i, j :: 0 <= i < j < |problems| ==> problems[i].slot != problems[j].slot
  }

  predicate Within(problems: seq<Problem>, start: int, now: int) {
    start <= now && forall i :: 0 <= i < |problems| ==> now - start < problems[i].cooldown
  }

  function Batches(problems: seq<Problem>, now: int): seq<Batch> {
    seq(|problems|, i requires 0 <= i < |problems| => BatchOf(problems[i], now))
  }

  lemma {:induction false} StagedPrefix(s: Suppression, problems: seq<Problem>, left: nat, start: int, now: int)
    requires left <= |problems| && Pending(s, problems, left, start) && Within(problems, start, now)
    ensures Staged(s, problems, now) == Batches(problems[..left], now)
  {
    if problems != [] {
      var n := |problems| - 1;
      var p := problems[n];
      if left == |problems| {
        StagedPrefix(s, problems[..n], n, start, now);
        assert problems[..n][..n] == problems[..n];
        assert Due(s, p, now);
        assert Batches(problems[..left], now) == Batches(problems[..n], now) + [BatchOf(p, now)];
      } else {
        StagedPrefix(s, problems[..n], left, start, now);
        assert problems[..n][..left] == problems[..left];
        assert !Due(s, p, now);
      }
    }
  }

  lemma {:induction false} BatchesMark(s: Suppression, problems: seq<Problem>, now: int)
    ensures forall slot :: slot in CommitAll(s, Batches(problems, now)) <==>
                           slot in s || exists i :: 0 <= i < |problems| && problems[i].slot == slot
    ensures forall i :: 0 <= i < |problems| ==>
                        problems[i].slot in CommitAll(s, Batches(problems, now))
                        && CommitAll(s, Batches(problems, now))[problems[i].slot] == Time(now)
    ensures forall slot :: slot in s && (forall i :: 0 <= i < |problems| ==> problems[i].slot != slot) ==>
                           slot in CommitAll(s, Batches(problems, now)) && CommitAll(s, Batches(problems, now))[slot] == s[slot]
  {
    if problems != [] {
      var n := |problems| - 1;
      var p := problems[n];
      BatchesMark(s, problems[..n], now);
      var before := CommitAll(s, Batches(problems[..n], now));
      assert Batches(problems, now)[..n] == Batches(problems[..n], now);
      OneMark(before, p, now);
      assert CommitAll(s, Batches(problems, now)) == before[p.slot := Time(now)];
    }
  }

  lemma OneMark(s: Suppression, p: Problem, now: int)
    ensures CommitOne(s, BatchOf(p, now)) == s[p.slot := Time(now)]
  {
    var b := BatchOf(p, now);
    assert b.marks[..0] == [];
    assert AllMarked(s, b.marks) == Marked(s, b.marks[0]);
  }

  /** Telling the last of the untold problems leaves the ones before them. */
  lemma PendingLess(s: Suppression, problems: seq<Problem>, left: nat, keep: nat, start: int, now: int)
    requires keep <= left <= |problems| && start <= now && Pending(s, problems, left, start) && Distinct(problems)
    ensures Pending(CommitAll(s, Batches(problems[keep..left], now)), problems, keep, start)
  {
    var told := problems[keep..left];
    BatchesMark(s, told, now);
    var after := CommitAll(s, Batches(told, now));
    forall i | 0 <= i < |problems|
      ensures if i < keep then problems[i].slot !in after
              else problems[i].slot in after && after[problems[i].slot].Time? && after[problems[i].slot].at >= start
    {
      if keep <= i < left { assert told[i - keep] == problems[i]; }
      else { assert forall j :: 0 <= j < |told| ==> told[j] == problems[keep + j]; }
    }
  }

  lemma DrainStep(s: Suppression, problems: seq<Problem>, left: nat, start: int, now: int, max: nat)
    requires left <= |problems| && Pending(s, problems, left, start) && Within(problems, start, now) && Distinct(problems)
    ensures CapBatches(Staged(s, problems, now), max) == Batches(problems[Less(left, max)..left], now)
    ensures Pending(CommitAll(s, CapBatches(Staged(s, problems, now), max)), problems, Less(left, max), start)
  {
    StagedPrefix(s, problems, left, start, now);
    assert CapBatches(Batches(problems[..left], now), max) == Batches(problems[Less(left, max)..left], now);
    PendingLess(s, problems, left, Less(left, max), start, now);
  }

  lemma BacklogStep(w: World, problems: seq<Problem>, write: Write, max: nat)
    ensures var w', kept := Step(w, BacklogInput(w, problems, write), max), CapBatches(Staged(w.state, problems, write.at), max);
            && w'.state == (if write.ok then CommitAll(w.state, kept) else w.state)
            && w'.entries == (if write.ok then w.entries + EntriesOf(kept) else w.entries)
  {
    var input := BacklogInput(w, problems, write);
    assert w.state - input.cleared == w.state;
    assert input.first + Unstored(View(w.entries, input.lost), input.due) + input.last == Staged(w.state, problems, write.at);
  }

  function Undated(entries: seq<Entry>): seq<Entry> {
    seq(|entries|, i requires 0 <= i < |entries| => entries[i].(at := None))
  }

  function EntriesFor(problems: seq<Problem>): seq<Entry> {
    seq(|problems|, i requires 0 <= i < |problems| => problems[i].entry.(at := None))
  }

  /** The entries tell exactly these problems, once each, in any order and at any time. */
  ghost predicate Tells(entries: seq<Entry>, problems: seq<Problem>) {
    multiset(Undated(entries)) == multiset(EntriesFor(problems))
  }

  lemma TellsMore(entries: seq<Entry>, problems: seq<Problem>, keep: nat, left: nat, now: int)
    requires keep <= left <= |problems| && Tells(entries, problems[left..])
    ensures Tells(entries + EntriesOf(Batches(problems[keep..left], now)), problems[keep..])
  {
    var more := EntriesOf(Batches(problems[keep..left], now));
    assert Undated(entries + more) == Undated(entries) + Undated(more);
    assert Undated(more) == EntriesFor(problems[keep..left]);
    assert EntriesFor(problems[keep..]) == EntriesFor(problems[keep..left]) + EntriesFor(problems[left..]);
  }

  /** What a run has told of a backlog: exactly the problems from `left` on are in the store since
      `before`, and marked. */
  ghost predicate ToldFrom(before: World, after: World, problems: seq<Problem>, left: nat, start: int) {
    && left <= |problems| && Pending(after.state, problems, left, start)
    && before.entries <= after.entries && Tells(after.entries[|before.entries|..], problems[left..])
  }

  /** While all ticks fall inside the cooldowns, after any run and any number of successful writes, with
      failed ones between them, exactly the last problems but the first `Left` are in the store. */
  lemma {:induction false} BacklogDrains(prior: seq<Entry>, inputs: seq<Input>, problems: seq<Problem>, writes: seq<Write>,
                                         start: int, max: nat)
    requires Distinct(problems) && forall i :: 0 <= i < |problems| ==> problems[i].slot !in Run(prior, inputs, max).state
    requires forall i :: 0 <= i < |writes| ==> Within(problems, start, writes[i].at)
    ensures ToldFrom(Run(prior, inputs, max), Run(prior, Backlog(prior, inputs, problems, writes, max), max), problems,
                     Left(|problems|, Successes(writes), max), start)
  {
    if writes == [] {
      NothingTold(Run(prior, inputs, max), problems, start);
    } else {
      var earlier, last := writes[..|writes| - 1], writes[|writes| - 1];
      BacklogDrains(prior, inputs, problems, earlier, start, max);
      var done := Backlog(prior, inputs, problems, earlier, max);
      ToldStep(Run(prior, inputs, max), Run(prior, done, max), problems, Left(|problems|, Successes(earlier), max), start, last,
               max);
      RunSnoc(prior, done, BacklogInput(Run(prior, done, max), problems, last), max);
    }
  }

  lemma RunSnoc(prior: seq<Entry>, inputs: seq<Input>, input: Input, max: nat)
    ensures Run(prior, inputs + [input], max) == Step(Run(prior, inputs, max), input, max)
  {
    assert (inputs + [input])[..|inputs|] == inputs;
  }

  lemma NothingTold(w: World, problems: seq<Problem>, start: int)
    requires forall i :: 0 <= i < |problems| ==> problems[i].slot !in w.state
    ensures ToldFrom(w, w, problems, |problems|, start)
  {
    assert w.entries[|w.entries|..] == [] && problems[|problems|..] == [];
  }

  lemma ToldStep(before: World, w: World, problems: seq<Problem>, left: nat, start: int, write: Write, max: nat)
    requires ToldFrom(before, w, problems, left, start) && Within(problems, start, write.at) && Distinct(problems)
    ensures ToldFrom(before, Step(w, BacklogInput(w, problems, write), max), problems,
                     if write.ok then Less(left, max) else left, start)
  {
    BacklogStep(w, problems, write, max);
    if write.ok {
      var keep, now, n := Less(left, max), write.at, |before.entries|;
      DrainStep(w.state, problems, left, start, now, max);
      var kept := EntriesOf(Batches(problems[keep..left], now));
      TellsMore(w.entries[n..], problems, keep, left, now);
      assert (w.entries + kept)[n..] == w.entries[n..] + kept;
    }
  }

  lemma {:induction false} LeftIs(n: nat, done: nat, max: nat)
    ensures Left(n, done, max) == if n <= done * max then 0 else n - done * max
  {
    if done > 0 {
      LeftIs(n, done - 1, max);
      assert done * max == (done - 1) * max + max;
    }
  }

  /** So all of them are in the store exactly when the successful writes have had room for them. */
  lemma {:induction false} BacklogTold(prior: seq<Entry>, inputs: seq<Input>, problems: seq<Problem>, writes: seq<Write>,
                                       start: int, max: nat)
    requires Distinct(problems) && forall i :: 0 <= i < |problems| ==> problems[i].slot !in Run(prior, inputs, max).state
    requires forall i :: 0 <= i < |writes| ==> Within(problems, start, writes[i].at)
    ensures var before, after := Run(prior, inputs, max), Run(prior, Backlog(prior, inputs, problems, writes, max), max);
            && before.entries <= after.entries
            && (Tells(after.entries[|before.entries|..], problems) <==> |problems| <= Successes(writes) * max)
  {
    BacklogDrains(prior, inputs, problems, writes, start, max);
    LeftIs(|problems|, Successes(writes), max);
    var before, after := Run(prior, inputs, max), Run(prior, Backlog(prior, inputs, problems, writes, max), max);
    var left := Left(|problems|, Successes(writes), max);
    assert problems[0..] == problems;
    SameNumber(after.entries[|before.entries|..], problems[left..]);
    if Tells(after.entries[|before.entries|..], problems) { SameNumber(after.entries[|before.entries|..], problems); }
  }

  lemma SameNumber(entries: seq<Entry>, problems: seq<Problem>)
    requires Tells(entries, problems)
    ensures |entries| == |problems|
  {
    assert |Undated(entries)| == |multiset(Undated(entries))| == |multiset(EntriesFor(problems))| == |EntriesFor(problems)|;
  }

  /** In particular each of them then has its entry among those accepted since. */
  lemma {:induction false} EachIsTold(entries: seq<Entry>, problems: seq<Problem>, i: nat) returns (k: nat)
    requires Tells(entries, problems) && i < |problems|
    ensures k < |entries| && entries[k].(at := None) == problems[i].entry.(at := None)
  {
    var e := EntriesFor(problems)[i];
    assert e in multiset(EntriesFor(problems)) && e in multiset(Undated(entries)) && e in Undated(entries);
    k :| k < |entries| && Undated(entries)[k] == e;
  }

  // ----- The controller meets it --------------------------------------------------------------------

  /** The alerts a read shows: those that are not lost. */
  method ReadAlerts(entries: seq<Entry>, lost: set<Entry>) returns (view: seq<Entry>)
    ensures view == View(entries, lost)
  {
    view := [];
    for i := 0 to |entries|
      invariant view == View(entries[..i], lost)
    {
      assert entries[..i + 1][..i] == entries[..i];
      if entries[i] !in lost { view := view + [entries[i]]; }
    }
    assert entries[..|entries|] == entries;
  }

  method ServeTick(controller: ResourceController, store: AlertStore, input: Input, ghost w: World)
    requires w.state == controller.state && w.entries == store.entries
    modifies controller, store
    ensures var w' := Step(w, input, controller.maxPerWrite);
            controller.state == w'.state && store.entries == w'.entries
  {
    var view := ReadAlerts(store.entries, input.lost);
    controller.state := controller.state - input.cleared;
    store.faults := [!input.ok];
    var ok := controller.Tick(store, view, input.first, input.due, input.last);
    ghost var staged := input.first + Unstored(view, input.due) + input.last;
    if staged == [] { assert CapBatches(staged, controller.maxPerWrite) == [] && EntriesOf([]) == []; }
  }

  /** The controller and its store go through any ticks as the runs do. */
  method Serve(prior: seq<Entry>, inputs: seq<Input>, max: nat) returns (state: Suppression, entries: seq<Entry>)
    ensures state == Run(prior, inputs, max).state && entries == Run(prior, inputs, max).entries
  {
    var controller := new ResourceController(max);
    var store := new AlertStore(prior);
    for n := 0 to |inputs|
      invariant fresh(controller) && fresh(store) && controller.maxPerWrite == max
      invariant controller.state == Run(prior, inputs[..n], max).state && store.entries == Run(prior, inputs[..n], max).entries
    {
      assert inputs[..n + 1][..n] == inputs[..n];
      ghost var w := Run(prior, inputs[..n], max);
      ServeTick(controller, store, inputs[n], w);
      assert Step(w, inputs[n], max) == Run(prior, inputs[..n + 1], max);
    }
    assert inputs[..|inputs|] == inputs;
    state, entries := controller.state, store.entries;
  }
}
