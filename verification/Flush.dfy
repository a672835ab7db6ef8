/** Flushing a replica's buffer to shared rollup objects by read, add and update under optimistic
    concurrency, while other replicas write the same objects: authz/usage.go, Flush and flushOne. */
module Flush {
  import opened Wrappers
  import opened Usage
  import Calendar
  import opened Period
  import opened RollupServer
  import opened FlushFacts
  import P = UsageProtocol
  import QuotaBound
  import S = Shadow

  type Name = (string, string)

  function NameOf(k: Key): Name { (k.namespace, RollupName(k.prefix, k.day)) }

  /** The rollup of a key of a written date, as every caller of Add gives it. */
  function Rollups(k: Key): Option<Name> { if Calendar.DayShape(k.day) then Some(NameOf(k)) else None }

  lemma NamesApart()
    ensures Injective(Rollups)
  {
    forall k: Key, m: Key | Rollups(k).Some? && Rollups(k) == Rollups(m) ensures k == m {
      RollupNameInjective(k.prefix, k.day, m.prefix, m.day);
    }
  }

  /** The replica buffers what is buffered here, counts and floors. */
  predicate Follows<K(==)>(rep: P.Replica<K>, counts: map<K, Counts>, floors: map<K, nat>) {
    rep.counts == counts && rep.floors == floors
  }

  /** The replica has an entry to flush. */
  predicate Holds<K>(rep: P.Replica<K>, k: K, c: Counts) { rep.work.Choosing? && k in rep.batch && rep.batch[k] == c }

  /** A call has failed, or all five writes of an entry were refused. */
  predicate Troubled(faults: nat, faults': nat, refusals: nat, refusals': nat) {
    faults' > faults || refusals' >= refusals + 5
  }

  /** How one attempt at an entry ends: the total it wrote, a refused write to try again, or an error. */
  datatype Attempted = Wrote(total: nat) | Refused | Failed

  /** The replica after an attempt; a landed one still has its floor to raise. */
  function AfterTry<K>(rep: P.Replica<K>, k: K, r: Attempted): P.Replica<K>
    requires rep.work.Attempt?
  {
    match r
    case Wrote(total) => S.Wrote(rep, k, total)
    case Refused => if rep.work.tries == 4 then P.Fail(rep, k) else rep.(work := P.Attempt(k, rep.work.tries + 1))
    case Failed => P.Fail(rep, k)
  }

  function Outcome(read: Reply, reply: Reply, c: Counts): Attempted {
    if reply.Done? then Wrote(CountsRead(read).allowed + c.allowed) else if reply.Fault? then Failed else Refused
  }

  lemma TryAnswered<K>(rep: P.Replica<K>, k: K, read: Reply, reply: Reply)
    requires rep.work.Attempt? && rep.work.key == k && !read.Fault?
    ensures AfterWrite(AfterGet(rep, k, read), reply) == AfterTry(rep, k, Outcome(read, reply, CountsAt(rep.batch, k)))
  {
  }

  lemma WroteTotal(read: Reply, c: Counts, total: Counts)
    requires total == CountsRead(read).Plus(c)
    ensures c.allowed <= CountsRead(read).allowed + c.allowed == total.allowed
  {
  }

  /** Creates the rollup, or replaces it by what was read plus this entry. */
  method WriteBack<N(!new)>(server: ApiServer<Key, N>, ghost k: Key, n: N, c: Counts, read: Reply) returns (reply: Reply)
    requires server.Valid() && Writes(server.shadow.replica, k, c, VersionRead(read), CountsRead(read))
    requires server.name(k) == Some(n)
    requires read == if n in server.objects then Found(server.objects[n]) else NotFound
    requires read.Found? ==> read.rollup.version > 0
    modifies server
    ensures server.Valid() && old(server.moves) <= server.moves && server.origin == old(server.origin)
    ensures server.shadow.replica == AfterWrite(old(server.shadow.replica), reply)
    ensures reply.Done? ==> Added(old(server.Now()), server.Now(), n, c)
    ensures reply.Done? ==> Total(server.objects, n) == CountsRead(read).Plus(c)
    ensures !reply.Done? ==> Moved(old(server.Now()), server.Now())
    ensures server.faults == old(server.faults) + (if reply.Fault? then 1 else 0)
    ensures server.refusals == old(server.refusals) + (if reply.Done? || reply.Fault? then 0 else 1)
  {
    if read.NotFound? {
      PlusZero(c);
      reply := server.Create(k, n, c);
    } else {
      reply := server.Update(k, n, read.rollup, c);
    }
  }

  /** One attempt: reads the rollup, adds and writes it. */
  method TryOnce<N(!new)>(server: ApiServer<Key, N>, ghost k: Key, n: N, c: Counts) returns (r: Attempted)
    requires server.Valid() && server.shadow.replica.work.Attempt? && server.shadow.replica.work.key == k
    requires server.shadow.replica.work.tries < 5 && CountsAt(server.shadow.replica.batch, k) == c
    requires server.name(k) == Some(n)
    modifies server
    ensures server.Valid() && old(server.moves) <= server.moves && server.origin == old(server.origin)
    ensures server.shadow.replica == AfterTry(old(server.shadow.replica), k, r)
    ensures r.Wrote? ==> Added(old(server.Now()), server.Now(), n, c)
    ensures r.Wrote? ==> c.allowed <= r.total == Total(server.objects, n).allowed
    ensures !r.Wrote? ==> Moved(old(server.Now()), server.Now())
    ensures server.faults == old(server.faults) + (if r.Failed? then 1 else 0)
    ensures server.refusals == old(server.refusals) + (if r.Refused? then 1 else 0)
  {
    ghost var start, rep := server.Now(), server.shadow.replica;
    var read := server.Get(k, n);
    if read.Fault? { return Failed; }
    ghost var seen := server.Now();
    var reply := WriteBack(server, k, n, c, read);
    TryAnswered(rep, k, read, reply);
    r := Outcome(read, reply, c);
    if reply.Done? {
      MovedThenAdded(start, seen, server.Now(), n, c);
      WroteTotal(read, c, Total(server.objects, n));
    } else {
      MovedChain(start, seen, server.Now());
    }
  }

  lemma TryEnds<K>(rep: P.Replica<K>, k: K, tries: nat, r: Attempted)
    ensures var after := AfterTry(rep.(work := P.Attempt(k, tries)), k, r);
            && (r.Failed? || (r.Refused? && tries == 4) ==> after == P.Fail(rep, k))
            && (r.Refused? && tries != 4 ==> after == rep.(work := P.Attempt(k, tries + 1)))
  {
  }

  /** One attempt, and the floor raised if it wrote; `rep` is the replica without its work. */
  method TryWithFloor<N(!new)>(server: ApiServer<Key, N>, buffer: UsageBuffer, k: Key, n: N, c: Counts,
                               ghost rep: P.Replica<Key>, ghost tries: nat)
    returns (r: Attempted)
    requires server.Valid() && server.shadow.replica == rep.(work := P.Attempt(k, tries)) && tries < 5
    requires CountsAt(rep.batch, k) == c && server.name(k) == Some(n)
    modifies server, buffer`floors
    ensures server.Valid() && old(server.moves) <= server.moves && server.origin == old(server.origin)
    ensures r.Wrote? ==> server.shadow.replica == S.Finished(rep, k, r.total)
    ensures r.Failed? || (r.Refused? && tries == 4) ==> server.shadow.replica == P.Fail(rep, k)
    ensures r.Refused? && tries < 4 ==> server.shadow.replica == rep.(work := P.Attempt(k, tries + 1))
    ensures r.Wrote? ==> Added(old(server.Now()), server.Now(), n, c)
    ensures r.Wrote? ==> c.allowed <= r.total == Total(server.objects, n).allowed
    ensures !r.Wrote? ==> Moved(old(server.Now()), server.Now())
    ensures buffer.floors == if r.Wrote? then Raised(old(buffer.floors), k, r.total) else old(buffer.floors)
    ensures server.faults == old(server.faults) + (if r.Failed? then 1 else 0)
    ensures server.refusals == old(server.refusals) + (if r.Refused? then 1 else 0)
  {
    r := TryOnce(server, k, n, c);
    TryEnds(rep, k, tries, r);
    if r.Wrote? {
      S.FloorFinishes(rep, server.shadow.hist, server.days, k, r.total, tries);
      server.Move(S.Ours(P.Floor));
      buffer.SetFloor(k, r.total);
    }
  }

  /** Writes one entry to the rollup of this name. */
  method FlushNamed<N(!new)>(server: ApiServer<Key, N>, buffer: UsageBuffer, k: Key, n: N, c: Counts)
    returns (ok: bool, ghost written: nat)
    requires server.Valid() && Holds(server.shadow.replica, k, c) && server.name(k) == Some(n)
    modifies server, buffer`floors
    ensures server.Valid() && old(server.moves) <= server.moves && server.origin == old(server.origin)
    ensures server.shadow.replica == if ok then S.Finished(old(server.shadow.replica), k, written)
                                     else P.Fail(old(server.shadow.replica), k)
    ensures Added(old(server.Now()), server.Now(), n, Share(ok, c))
    ensures ok ==> c.allowed <= written == Total(server.objects, n).allowed
    ensures buffer.floors == if ok then Raised(old(buffer.floors), k, written) else old(buffer.floors)
    ensures server.faults >= old(server.faults) && server.refusals >= old(server.refusals)
    ensures !ok ==> server.faults > old(server.faults) || server.refusals == old(server.refusals) + 5
  {
    ghost var start, rep := server.Now(), server.shadow.replica;
    written := 0;
    server.Move(S.Ours(P.Begin(k)));
    for attempt := 0 to 5
      invariant Moved(start, server.Now())
      invariant server.Valid() && old(server.moves) <= server.moves && server.origin == old(server.origin)
      invariant server.shadow.replica == if attempt < 5 then rep.(work := P.Attempt(k, attempt)) else P.Fail(rep, k)
      invariant buffer.floors == old(buffer.floors)
      invariant server.faults == old(server.faults) && server.refusals == old(server.refusals) + attempt
    {
      ghost var before := server.Now();
      var r := TryWithFloor(server, buffer, k, n, c, rep, attempt);
      if r.Wrote? {
        MovedThenAdded(start, before, server.Now(), n, c);
        return true, r.total;
      }
      MovedChain(start, before, server.Now());
      if r.Failed? { MovedAdded(start, server.Now(), n); return false, written; }
    }
    MovedAdded(start, server.Now(), n);
    ok := false;
  }

  /** Writes one entry: five attempts at read, add and write. On success exactly this entry's
      counts reached the rollup and the floor is raised to the total written; on failure nothing
      of it did, and a call failed or all five writes were refused. */
  method FlushOne(server: ApiServer<Key, Name>, buffer: UsageBuffer, k: Key, c: Counts) returns (ok: bool, ghost written: nat)
    requires server.Valid() && Holds(server.shadow.replica, k, c) && server.name(k) == Some(NameOf(k))
    modifies server, buffer`floors
    ensures server.Valid() && old(server.moves) <= server.moves && server.origin == old(server.origin)
    ensures server.shadow.replica == if ok then S.Finished(old(server.shadow.replica), k, written)
                                     else P.Fail(old(server.shadow.replica), k)
    ensures Added(old(server.Now()), server.Now(), NameOf(k), Share(ok, c))
    ensures ok ==> c.allowed <= written == Total(server.objects, NameOf(k)).allowed
    ensures buffer.floors == if ok then Raised(old(buffer.floors), k, written) else old(buffer.floors)
    ensures server.faults >= old(server.faults) && server.refusals >= old(server.refusals)
    ensures !ok ==> server.faults > old(server.faults) || server.refusals == old(server.refusals) + 5
  {
    ok, written := FlushNamed(server, buffer, k, NameOf(k), c);
  }

  lemma MovedAdded<N(!new)>(m: World<N>, m': World<N>, n: N)
    requires Moved(m, m')
    ensures Added(m, m', n, Zero())
  {
    forall x ensures AddedAt(m, m', x, n, Zero()) { assert MovedAt(m, m', x); }
  }

  /** A request that is counted while a flush goes on. */
  type Request = (Key, Counter)

  function Tally(counts: map<Key, Counts>, requests: seq<Request>): map<Key, Counts>
    decreases |requests|
  {
    if requests == [] then counts else Tally(P.Bumped(counts, requests[0].0, requests[0].1), requests[1..])
  }

  /** Counts the first of the requests. */
  method CountSome<N(!new)>(server: ApiServer<Key, N>, buffer: UsageBuffer, requests: seq<Request>, upTo: nat)
    returns (rest: seq<Request>)
    requires upTo <= |requests| && server.Valid() && Follows(server.shadow.replica, buffer.counts, buffer.floors)
    modifies server`shadow, server`moves, buffer`counts
    ensures server.Valid() && old(server.moves) <= server.moves
    ensures Follows(server.shadow.replica, buffer.counts, buffer.floors)
    ensures OnlyCounted(old(server.shadow.replica), server.shadow.replica)
    ensures rest == requests[upTo..] && Tally(buffer.counts, rest) == Tally(old(buffer.counts), requests)
  {
    rest := requests;
    for i := 0 to upTo
      invariant server.Valid() && old(server.moves) <= server.moves
      invariant Follows(server.shadow.replica, buffer.counts, buffer.floors)
      invariant OnlyCounted(old(server.shadow.replica), server.shadow.replica)
      invariant rest == requests[i..] && Tally(buffer.counts, rest) == Tally(old(buffer.counts), requests)
    {
      var (k, counter) := rest[0];
      server.Move(S.Ours(P.Count(k, counter)));
      buffer.Add(k, counter);
      rest := rest[1..];
    }
  }

  /** Writes out one of the drained counts, after any number of the requests are counted. */
  method FlushNext<N(!new)>(server: ApiServer<Key, N>, buffer: UsageBuffer, counts: map<Key, Counts>, ghost left: set<Key>,
                            ghost failed: map<Key, Counts>, k: Key, ghost m: World<N>, ghost floors: map<Key, nat>,
                            requests: seq<Request>)
    returns (ok: bool, rest: seq<Request>)
    requires AllNamed(server.name, counts) && server.Valid() && k in left
    requires Flushing(m, server.Now(), floors, server.shadow.replica, counts, left, failed, server.name)
    requires Follows(server.shadow.replica, buffer.counts, buffer.floors)
    modifies server, buffer
    ensures server.Valid() && old(server.moves) <= server.moves && server.origin == old(server.origin)
    ensures Flushing(m, server.Now(), floors, server.shadow.replica, counts, left - {k}, After(counts, failed, k, ok), server.name)
    ensures Follows(server.shadow.replica, buffer.counts, buffer.floors)
    ensures Tally(buffer.counts, rest) == Tally(old(buffer.counts), requests)
    ensures server.shadow.replica.clock == old(server.shadow.replica.clock)
    ensures server.faults >= old(server.faults) && server.refusals >= old(server.refusals)
    ensures |left - {k}| < |left|
    ensures ok || Troubled(old(server.faults), server.faults, old(server.refusals), server.refusals)
  {
    rest := requests;
    ghost var before := server.shadow.replica;
    var upTo: nat := *;
    if upTo <= |rest| { rest := CountSome(server, buffer, rest, upTo); }
    ghost var m', rep := server.Now(), server.shadow.replica;
    FlushingCounted(m, m', floors, before, rep, counts, left, failed, server.name);
    FlushingHolds(m, m', floors, rep, counts, left, failed, server.name, k);
    ghost var written;
    ok, written := FlushNamed(server, buffer, k, server.name(k).value, counts[k]);
    FlushingStep(m, m', server.Now(), floors, rep, server.shadow.replica, counts, left, failed, After(counts, failed, k, ok),
                 server.name, k, ok, written);
  }

  /** Writes out drained counts, entry by entry, and returns those that failed; any number of the
      requests may be counted between two entries, and all are counted in the end. */
  method FlushEach<N(!new)>(server: ApiServer<Key, N>, buffer: UsageBuffer, counts: map<Key, Counts>, meanwhile: seq<Request>)
    returns (failed: map<Key, Counts>)
    requires AllNamed(server.name, counts) && server.Valid() && Follows(server.shadow.replica, buffer.counts, buffer.floors)
    requires server.shadow.replica.work.Choosing? && server.shadow.replica.batch == counts
    requires server.shadow.replica.failed == map[]
    modifies server, buffer
    ensures server.Valid() && old(server.moves) <= server.moves && server.origin == old(server.origin)
    ensures Flushing(old(server.Now()), server.Now(), old(buffer.floors), server.shadow.replica, counts, {}, failed, server.name)
    ensures Follows(server.shadow.replica, buffer.counts, buffer.floors)
    ensures buffer.counts == Tally(old(buffer.counts), meanwhile)
    ensures server.shadow.replica.clock == old(server.shadow.replica.clock)
    ensures failed == map[] || Troubled(old(server.faults), server.faults, old(server.refusals), server.refusals)
  {
    ghost var start, floors, calm := server.Now(), buffer.floors, true;
    ghost var faults, refusals := server.faults, server.refusals;
    failed := map[];
    var left, rest := counts.Keys, meanwhile;
    FlushingStarts(start, server.shadow.replica, counts, server.name);
    while left != {}
      invariant Flushing(start, server.Now(), floors, server.shadow.replica, counts, left, failed, server.name)
      invariant Follows(server.shadow.replica, buffer.counts, buffer.floors)
      invariant Tally(buffer.counts, rest) == Tally(old(buffer.counts), meanwhile)
      invariant server.Valid() && old(server.moves) <= server.moves && server.origin == old(server.origin)
      invariant server.shadow.replica.clock == old(server.shadow.replica.clock)
      invariant server.faults >= faults && server.refusals >= refusals
      invariant calm ==> failed == map[]
      invariant calm || server.faults > faults || server.refusals >= refusals + 5
      decreases |left|
    {
      var k :| k in left;
      var ok;
      ok, rest := FlushNext(server, buffer, counts, left, failed, k, start, floors, rest);
      failed, calm := After(counts, failed, k, ok), calm && ok;
      left := left - {k};
    }
    ghost var before := server.shadow.replica;
    rest := CountSome(server, buffer, rest, |rest|);
    FlushingCounted(start, server.Now(), floors, before, server.shadow.replica, counts, {}, failed, server.name);
  }

  /** Between flushes nothing is drained or failed. */
  predicate Rests<K(==)>(rep: P.Replica<K>, counts: map<K, Counts>, floors: map<K, nat>) {
    rep.work.Idle? && rep.batch == map[] && rep.failed == map[] && Follows(rep, counts, floors)
  }

  /** Drops the floors of old days. */
  method PruneOld<N(!new)>(server: ApiServer<Key, N>, buffer: UsageBuffer, now: int)
    requires server.Valid() && server.days == QuotaBound.Days() && server.shadow.replica.clock <= now
    requires Rests(server.shadow.replica, buffer.counts, buffer.floors)
    modifies server`shadow, server`moves, buffer`floors
    ensures server.Valid() && old(server.moves) <= server.moves && server.shadow.replica.clock == now
    ensures buffer.floors == Pruned(old(buffer.floors), now - FLOOR_RETENTION)
    ensures Rests(server.shadow.replica, buffer.counts, buffer.floors)
  {
    QuotaBound.PruneAgrees(buffer.floors, now);
    server.Move(S.Ours(P.Tick(now)));
    server.Move(S.Ours(P.Prune));
    buffer.PruneFloors(now - FLOOR_RETENTION);
  }

  /** Writes out what was drained and restores what failed. */
  method FlushDrained<N(!new)>(server: ApiServer<Key, N>, buffer: UsageBuffer, counts: map<Key, Counts>, meanwhile: seq<Request>)
    returns (ghost failed: map<Key, Counts>)
    requires AllNamed(server.name, counts) && server.Valid() && Follows(server.shadow.replica, buffer.counts, buffer.floors)
    requires server.shadow.replica.work.Choosing? && server.shadow.replica.batch == counts
    requires server.shadow.replica.failed == map[]
    modifies server, buffer
    ensures server.Valid() && old(server.moves) <= server.moves && server.origin == old(server.origin)
    ensures Rests(server.shadow.replica, buffer.counts, buffer.floors)
    ensures server.shadow.replica.clock == old(server.shadow.replica.clock)
    ensures AllSettled(old(server.Now()), counts, server.Now(), failed, server.name) && failed.Keys <= counts.Keys
    ensures buffer.counts == Merged(Tally(old(buffer.counts), meanwhile), failed)
    ensures failed == map[] || Troubled(old(server.faults), server.faults, old(server.refusals), server.refusals)
    ensures Floored(old(buffer.floors), buffer.floors, counts, {}, failed)
  {
    var back := FlushEach(server, buffer, counts, meanwhile);
    FlushingSettles(old(server.Now()), server.Now(), counts, back, server.name);
    RestoreEnds(server.shadow, server.days, counts, back);
    server.Move(S.Ours(P.Restore));
    buffer.Restore(back);
    failed := back;
  }

  /** A flush but for its pruning. */
  method FlushCounts<N(!new)>(server: ApiServer<Key, N>, buffer: UsageBuffer, meanwhile: seq<Request>)
    returns (ghost failed: map<Key, Counts>)
    requires AllNamed(server.name, buffer.counts) && server.Valid()
    requires Rests(server.shadow.replica, buffer.counts, buffer.floors)
    modifies server, buffer
    ensures server.Valid() && old(server.moves) <= server.moves && server.origin == old(server.origin)
    ensures Rests(server.shadow.replica, buffer.counts, buffer.floors)
    ensures server.shadow.replica.clock == old(server.shadow.replica.clock)
    ensures AllSettled(old(server.Now()), Merged(old(buffer.counts), Tally(map[], meanwhile)), server.Now(), buffer.counts,
                       server.name)
    ensures buffer.counts == Merged(Tally(map[], meanwhile), failed) && failed.Keys <= old(buffer.counts).Keys
    ensures failed == map[] || Troubled(old(server.faults), server.faults, old(server.refusals), server.refusals)
    ensures Floored(old(buffer.floors), buffer.floors, old(buffer.counts), {}, failed)
  {
    var counts := buffer.Drain();
    server.Move(S.Ours(P.Drain));
    failed := FlushDrained(server, buffer, counts, meanwhile);
    MeanwhileSettles(old(server.Now()), counts, server.Now(), failed, Tally(map[], meanwhile), server.name);
  }

  /** Writes out all buffered counts and puts those that failed back to what was counted meanwhile. For
      every key, what the rollup gained beyond the other replicas' writes, plus what is still buffered,
      is what was buffered before plus what was counted meanwhile: nothing is lost and nothing is
      counted twice. All of it is a run of the protocol, by a replica that buffers the same counts and
      floors: the floors are pruned, the counts drained, each entry attempted and the rest restored. */
  method FlushAll<N(!new)>(server: ApiServer<Key, N>, buffer: UsageBuffer, now: int, meanwhile: seq<Request>)
    returns (ghost failed: map<Key, Counts>)
    requires AllNamed(server.name, buffer.counts) && server.Valid()
    requires server.days == QuotaBound.Days() && server.shadow.replica.clock <= now
    requires Rests(server.shadow.replica, buffer.counts, buffer.floors)
    modifies server, buffer
    ensures server.Valid() && old(server.moves) <= server.moves && server.origin == old(server.origin)
    ensures Rests(server.shadow.replica, buffer.counts, buffer.floors) && server.shadow.replica.clock == now
    ensures AllSettled(old(server.Now()), Merged(old(buffer.counts), Tally(map[], meanwhile)), server.Now(), buffer.counts,
                       server.name)
    ensures buffer.counts == Merged(Tally(map[], meanwhile), failed) && failed.Keys <= old(buffer.counts).Keys
    ensures failed == map[] || Troubled(old(server.faults), server.faults, old(server.refusals), server.refusals)
    ensures Floored(Pruned(old(buffer.floors), now - FLOOR_RETENTION), buffer.floors, old(buffer.counts), {}, failed)
  {
    PruneOld(server, buffer, now);
    failed := FlushCounts(server, buffer, meanwhile);
  }

  /** A replica starts with nothing buffered, drained or failed. */
  method NewFlusher(script: seq<Event<Name>>) returns (server: ApiServer<Key, Name>, buffer: UsageBuffer)
    ensures fresh(server) && fresh(buffer) && server.Valid() && server.script == script
    ensures server.name == Rollups && server.days == QuotaBound.Days() && server.shadow.replica.clock == 0
    ensures Rests(server.shadow.replica, buffer.counts, buffer.floors) && buffer.counts == map[]
  {
    NamesApart();
    server := new ApiServer(script, Rollups, QuotaBound.Days());
    buffer := new UsageBuffer();
  }

  /** A flush of this replica's buffer, whose rollups are named by key and day. */
  method FlushBuffer(server: ApiServer<Key, Name>, buffer: UsageBuffer, now: int, meanwhile: seq<Request>)
    returns (ghost failed: map<Key, Counts>)
    requires AllNamed(Rollups, buffer.counts) && server.Valid() && server.name == Rollups
    requires server.days == QuotaBound.Days() && server.shadow.replica.clock <= now
    requires Rests(server.shadow.replica, buffer.counts, buffer.floors)
    modifies server, buffer
    ensures server.Valid() && old(server.moves) <= server.moves && server.origin == old(server.origin)
    ensures Rests(server.shadow.replica, buffer.counts, buffer.floors) && server.shadow.replica.clock == now
    ensures AllSettled(old(server.Now()), Merged(old(buffer.counts), Tally(map[], meanwhile)), server.Now(), buffer.counts,
                       Rollups)
    ensures buffer.counts == Merged(Tally(map[], meanwhile), failed) && failed.Keys <= old(buffer.counts).Keys
    ensures failed == map[] || Troubled(old(server.faults), server.faults, old(server.refusals), server.refusals)
    ensures Floored(Pruned(old(buffer.floors), now - FLOOR_RETENTION), buffer.floors, old(buffer.counts), {}, failed)
  {
    failed := FlushAll(server, buffer, now, meanwhile);
  }
}
