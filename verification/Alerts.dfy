/** The two-phase alert protocol of one tick: build the alerts, bound them to one write, store them,
    and only then commit what suppresses them. console-api/controller/resource_controller.go, tick,
    capBatches and commitBatches, and console-api/controller/autoscaling_alerts.go, unstoredEpisodes. */
module Alerts {
  import opened Wrappers
  import CrashLoop

  /** The controller's tables of suppression state. */
  datatype Table =
    | ImagePull | CrashLoopMark | Rollout | JobFail | NodeReady | AtMaximum | DumpFault
    | NotReadyReason | CrashLoopEpisode

  datatype Slot = Slot(table: Table, key: string)

  /** What a slot holds: a time, the reason already told, or an episode. */
  datatype Value = Time(at: int) | Reason(reason: string) | Episode(episode: CrashLoop.Episode)

  type Suppression = map<Slot, Value>

  /** A stored alert's time is seconds, and none when it cannot be read. */
  datatype Entry = Entry(at: Option<int>, namespace: string, app: string, action: string, reason: string)

  /** A staged cooldown mark; `del` forgets the slot instead. */
  datatype Mark = Mark(slot: Slot, at: int, del: bool)

  /** A staged change that is not a cooldown mark. */
  datatype Change = Put(slot: Slot, value: Value) | Forget(slot: Slot)

  /** One problem: its alert and what may be committed once that alert is stored. */
  datatype Batch = Batch(entry: Entry, marks: seq<Mark>, apply: seq<Change>)

  /** A due warning with the time its episode began, in nanoseconds. */
  datatype AlertEpisode = AlertEpisode(batch: Batch, since: int)

  // ----- Committing ---------------------------------------------------------------------------------

  function Marked(s: Suppression, m: Mark): Suppression {
    if m.del then s - {m.slot} else s[m.slot := Time(m.at)]
  }

  function Changed(s: Suppression, c: Change): Suppression {
    match c
    case Put(slot, value) => s[slot := value]
    case Forget(slot) => s - {slot}
  }

  function AllMarked(s: Suppression, marks: seq<Mark>): Suppression {
    if marks == [] then s else Marked(AllMarked(s, marks[..|marks| - 1]), marks[|marks| - 1])
  }

  function AllChanged(s: Suppression, apply: seq<Change>): Suppression {
    if apply == [] then s else Changed(AllChanged(s, apply[..|apply| - 1]), apply[|apply| - 1])
  }

  function CommitOne(s: Suppression, b: Batch): Suppression { AllChanged(AllMarked(s, b.marks), b.apply) }

  function CommitAll(s: Suppression, batches: seq<Batch>): Suppression {
    if batches == [] then s else CommitOne(CommitAll(s, batches[..|batches| - 1]), batches[|batches| - 1])
  }

  /** What one write may carry: the newest `max`, in order. */
  function CapBatches(batches: seq<Batch>, max: nat): seq<Batch> {
    if |batches| <= max then batches else batches[|batches| - max..]
  }

  /** The text before the first colon. */
  function ReasonOf(text: string): string {
    if text == "" || text[0] == ':' then "" else [text[0]] + ReasonOf(text[1..])
  }

  /** Whether a stored alert is the one `entry` would raise, written at or after `since`, which counts
      from the start of its second. */
  predicate Covers(a: Entry, entry: Entry, since: int) {
    && a.namespace == entry.namespace && a.app == entry.app && a.action == entry.action
    && (entry.action == "autoscaling not ready" ==> ReasonOf(a.reason) == ReasonOf(entry.reason))
    && a.at.Some? && a.at.value >= since / 1_000_000_000
  }

  predicate Stored(stored: seq<Entry>, ep: AlertEpisode) {
    exists i :: 0 <= i < |stored| && Covers(stored[i], ep.batch.entry, ep.since)
  }

  /** The episodes the store does not cover, in order. */
  function Unstored(stored: seq<Entry>, due: seq<AlertEpisode>): seq<Batch> {
    if due == [] then []
    else
      var rest := Unstored(stored, due[..|due| - 1]);
      if Stored(stored, due[|due| - 1]) then rest else rest + [due[|due| - 1].batch]
  }

  function Covered(stored: seq<Entry>, due: seq<AlertEpisode>): seq<Batch> {
    if due == [] then []
    else
      var rest := Covered(stored, due[..|due| - 1]);
      if Stored(stored, due[|due| - 1]) then rest + [due[|due| - 1].batch] else rest
  }

  method StoredSince(stored: seq<Entry>, entry: Entry, since: int) returns (found: bool)
    ensures found == exists i :: 0 <= i < |stored| && Covers(stored[i], entry, since)
  {
    for i := 0 to |stored|
      invariant forall j :: 0 <= j < i ==> !Covers(stored[j], entry, since)
    {
      var a := stored[i];
      if a.namespace != entry.namespace || a.app != entry.app || a.action != entry.action { continue; }
      if entry.action == "autoscaling not ready" && ReasonOf(a.reason) != ReasonOf(entry.reason) { continue; }
      if a.at.Some? && a.at.value >= since / 1_000_000_000 { return true; }
    }
    found := false;
  }

  /** The store of alerts: a write is accepted as a whole or not at all. */
  class AlertStore {
    var entries: seq<Entry>
    var faults: seq<bool>

    constructor (entries: seq<Entry>)
      ensures this.entries == entries && faults == []
    {
      this.entries, faults := entries, [];
    }

    method AddAlerts(batches: seq<Batch>) returns (ok: bool)
      modifies this
      ensures ok == (old(faults) == [] || !old(faults)[0])
      ensures entries == if ok then old(entries) + EntriesOf(batches) else old(entries)
    {
      ok := faults == [] || !faults[0];
      if faults != [] { faults := faults[1..]; }
      if ok { entries := entries + EntriesOf(batches); }
    }
  }

  function EntriesOf(batches: seq<Batch>): seq<Entry> { seq(|batches|, i requires 0 <= i < |batches| => batches[i].entry) }

  class ResourceController {
    var state: Suppression
    const maxPerWrite: nat

    constructor (maxPerWrite: nat)
      ensures state == map[] && this.maxPerWrite == maxPerWrite
    {
      state, this.maxPerWrite := map[], maxPerWrite;
    }

    method CommitBatches(batches: seq<Batch>)
      modifies this
      ensures state == CommitAll(old(state), batches)
    {
      for i := 0 to |batches|
        invariant state == CommitAll(old(state), batches[..i])
      {
        var b := batches[i];
        ghost var before := state;
        assert batches[..i + 1][..i] == batches[..i];
        for j := 0 to |b.marks|
          invariant state == AllMarked(before, b.marks[..j])
        {
          assert b.marks[..j + 1][..j] == b.marks[..j];
          var m := b.marks[j];
          if m.del {
            state := state - {m.slot};
          } else {
            state := state[m.slot := Time(m.at)];
          }
        }
        assert b.marks[..|b.marks|] == b.marks;
        ghost var marked := state;
        for j := 0 to |b.apply|
          invariant state == AllChanged(marked, b.apply[..j])
        {
          assert b.apply[..j + 1][..j] == b.apply[..j];
          state := Changed(state, b.apply[j]);
        }
        assert b.apply[..|b.apply|] == b.apply;
      }
      assert batches[..|batches|] == batches;
    }

    /** Commits the episodes a stored alert already covers and returns the others. */
    method UnstoredEpisodes(stored: seq<Entry>, due: seq<AlertEpisode>) returns (batches: seq<Batch>)
      modifies this
      ensures batches == Unstored(stored, due) && state == CommitAll(old(state), Covered(stored, due))
    {
      batches := [];
      for i := 0 to |due|
        invariant batches == Unstored(stored, due[..i]) && state == CommitAll(old(state), Covered(stored, due[..i]))
      {
        var ep := due[i];
        assert due[..i] + [ep] == due[..i + 1];
        var found := StoredSince(stored, ep.batch.entry, ep.since);
        if found {
          CommitBatches([ep.batch]);
        } else {
          batches := batches + [ep.batch];
        }
      }
      assert due[..|due|] == due;
    }

    /** The alert part of a tick. The checks before and after the autoscaling one stage `first` and
        `last`; a failed read of the store counts as an empty one. */
    method Tick(store: AlertStore, view: seq<Entry>, first: seq<Batch>, due: seq<AlertEpisode>, last: seq<Batch>)
      returns (ok: bool)
      modifies this, store
      ensures var staged := first + Unstored(view, due) + last;
              var kept := CapBatches(staged, maxPerWrite);
              && state == CommitAll(CommitAll(old(state), Covered(view, due)), if ok then kept else [])
              && store.entries == (if ok then old(store.entries) + EntriesOf(kept) else old(store.entries))
              && (staged == [] || ok == (old(store.faults) == [] || !old(store.faults)[0]))
    {
      var unstored := UnstoredEpisodes(view, due);
      var batches := first + unstored + last;
      ok := true;
      if |batches| > 0 {
        var kept := CapBatches(batches, maxPerWrite);
        ok := store.AddAlerts(kept);
        if ok { CommitBatches(kept); }
      } else {
        assert CapBatches(batches, maxPerWrite) == [] && EntriesOf([]) == [];
      }
    }
  }
}
