# Kipper: a verified model of its hardest parts

These Dafny modules model the parts of Kipper where a mistake would be silent: a SQL template compiler, usage metering and
quotas across replicas, a Lease watchdog, the alert state of the resource controller, build ordering, a bounded proxy
cache, a license-expression parser and the freshness probe of the authorizer. Each part has two layers. Code that changes
state step by step is a class or a loop whose contract equates the new state with a specification function; the properties
the code exists for are proved about those functions, over all inputs and all runs.

`dafny verify dfyconfig.toml` checks everything. Bytes and characters are Dafny `char`s, instants are integers (nanoseconds
for periods, seconds elsewhere), and calls to the Kubernetes API are a versioned store whose other writers and failures are
arbitrary.

`Wrappers` holds `Option` and `Result`, `Text` byte tests, searching and decimal numerals.

### Mark-done templates

`kipper-poll/markdone.go` splits a SQL template into pieces (`Text`, `Literal`, `Lexer`), renders the pieces for one row
(`Render`), and is required to keep the meaning of what the author wrote (`Meaning`). The reader `Meaning.ReadExpr` is an
independent definition of what a rendered SQL expression evaluates to: it knows quotes, escape pairs, markers, `||` and
`CONCAT`, and nothing about how the expression was produced. Quoting follows section 4.1.2 of the PostgreSQL manual and
the string-literal rules of the MySQL manual.

### Usage metering and quota

`Usage`, `RollupServer`, `FlushFacts`, `Flush` and `Quota` model the buffer, the flusher and the quota sum of `authz` as
classes and loops against an API server that other replicas may write between any two calls and that may fail any call. `UsageProtocol` and `UsageRuns`
model the same protocol as steps of any number of replicas over one versioned store, each with a lagging cache, so that
the results hold over every interleaving. The two are joined: beside the API server of the loops a replica of the protocol
takes one step for each call (`Shadow`, `RollupServer`), and the contracts of the loops say that it arrives where they do,
with the same counts and floors. `QuotaBound` is the step system run with the calendar's days, and so is that replica.
`Calendar` and `Period` hold the date arithmetic.

### Controller Lease

`LeaseProtocol` is the election as steps of any number of processes over one versioned Lease: requests in flight, replies up
to the client timeout, observation, takeover, exit, draining and release, on one clock. `Lease` models the watchdog of
`console-api/controller_lease.go` itself against a scripted API server.

### Alerts, two phases

A problem becomes an alert batch; batches are capped, stored in one write and only then commit their suppression state.
`Alerts` has the loops, `AlertRuns` the runs with arbitrary failed writes, deferrals, cleared state and lost entries.

### Crash-loop episodes

`CrashLoop` is the episode state machine of one workload, `CrashLoopRuns` its life over a whole process: ticks with any
observations, failed alert writes, stopped apps, restarted workloads and the daily sweep. The file's own comment at
`console-api/controller/crashloop_escalation.go:109-110` says that crossing six hours speaks at once; the hourly floor in
`console-api/controller/resource_controller.go:1967` is asked first, so the code does not, and the model follows the code; `CrossingStored` says exactly when the crossing is told.
Two critical alerts of one episode can be less than a day apart, but only by the one read-only diagnosis (`CriticalApart`);
`CriticalSoon` says exactly when a tick brings it.

### Log-reading budget

The allowance for reading logs in one tick and the debt queue carried to the next.

### Right-sizing

`evaluate` with its hysteresis, in exact integers: `100 * usage` against `80 * request`, halves and one-and-a-halves rounded up.

### Workload observation

`observeWorkloads` reduces all pods to one observation per workload and container.

### Build completion

`Builds` is the reconciler with its reads and two writes, `BuildRuns` the runs with late finishes, failed writes, retries,
deletions and source changes. For the deployed build not to move backwards it does not suffice that a job with a failed
reconcile stays until the retry: `RetryingIsNotEnough` is such a run that goes backwards, because a superseded retry ends
without an error. What matters is `Covered`: a listed job of the App is at least as new as the deployed build, or the tracked
job is gone and the status remembers that build or a newer one. Covered before every applied completion is exactly what a run
needs (`NeverBackwardsExactly`), and from an uncovered state any listed job that has not failed can still come to replace the
newer build (`UncoveredCanGoBack`).

`console-api/controllers/build_controller.go:92` and `:253-257` let a job without a UID label pass and compare it only with
others like it, which `ForwardIffGuarded` covers. The builder writes the label and the source fingerprint together
(`console-api/builder/builder.go:248-255` and `:318-323`), so a job without the label has no fingerprint either, and
`build_controller.go:116-128` refuses it; in `BuildRuns` such jobs are the ones of the time before labels.

### Proxy cache and slots

The bounded cache of `gateway/proxy.go` as a list of elements and a map, and its in-flight counters as shared objects.
`SlotRuns` runs the counters against a limit that knows nothing of them.

### License expressions

The recursive-descent parser of `scripts/check-licenses.py` over license expressions (Annex D of SPDX Specification 2.3).

### Freshness

The probe of `authz/freshness.go` over caches that are prefixes of in-order logs and may move between any two reads.

## Model

| member | source | states |
|---|---|---|
| `Meaning.MarkDoneMeaning` | kipper-poll/markdone.go:36-249 | For every accepted template, dialect and row: the pieces spell the template, and every literal with placeholders and every bound placeholder, read in place in the rendered query with the emitted arguments, evaluates to the decoded literal with present columns replaced by their values and absent ones left as written |
| `Meaning.BoundInOrder` | kipper-poll/markdone.go:170-213 | The k-th argument is the k-th present placeholder of the template, in template order; the bound list depends on which columns are present and never on their values |
| `Meaning.EmptyRow` | kipper-poll/markdone.go:170-213 | A row with none of the columns binds nothing, and the query equals the template exactly when no literal with placeholders directly follows an identifier byte or `$` (where one separator space appears) |
| `Meaning.BoundPieceReads` | kipper-poll/markdone.go:187-213 | One piece of the above: at its place in the finished query the rendered piece reads back as the value of the piece, using exactly its own arguments, and what follows cannot be read as part of it |
| `Meaning.CompositeReads` | kipper-poll/markdone.go:217-249 | The text of a literal with placeholders reads as the concatenation of its parts in both dialects, whatever follows that does not start with a quote |
| `Meaning.TermsMean` | kipper-poll/markdone.go:217-239 | Regrouping the parts into chunks and markers keeps the value: the chunks decode to what the fixed parts and the absent columns said |
| `Lexer.ParseLossless` | kipper-poll/markdone.go:36-167 | Re-emitting the pieces of an accepted template gives back the template, byte for byte, and every piece is well formed |
| `Lexer.ParseMarkDone` | kipper-poll/markdone.go:36-167 | The loop with its pending text and last-literal memory returns the merged token sequence of the template, or the refusal of the first token that is refused |
| `Lexer.TokenFacts` | kipper-poll/markdone.go:49-164 | Each token covers exactly the bytes it was read from, scanning advances, and a literal is never directly followed by a quote |
| `Lexer.TokensStand` | kipper-poll/markdone.go:49-164 | The tokens of a whole template tile it: each starts where the one before ended |
| `Lexer.MergedFacts` | kipper-poll/markdone.go:40-45 | Gathering text between placeholders into one piece changes neither the text nor the well-formedness |
| `Lexer.NextToken` | kipper-poll/markdone.go:49-164 | One turn of the loop takes the same branch, piece and refusal as the token specification that the lossless theorem is about |
| `Lexer.NextLiteral` | kipper-poll/markdone.go:66-90 | A literal becomes text, one value, a concatenation or a refusal; adjacent literals and prefixed strings with placeholders are refused |
| `Lexer.NextDollar` | kipper-poll/markdone.go:131-150 | Native parameters are refused, a dollar-quoted string is kept whole, and any other `$` is one byte of text |
| `Lexer.ScanQuoted` | kipper-poll/markdone.go:292-304 | Returns the end of the quoted text that `QuotedEnd` defines, doubled quotes and MySQL backslashes included |
| `Lexer.QuotedRoundTrip` | kipper-poll/markdone.go:292-304 | Reading a quoted identifier written by doubling its quotes ends exactly at its closing quote, for every name |
| `Lexer.BlockCommentEnd` | kipper-poll/markdone.go:366-382 | Returns the end of the comment under the nesting rule of the dialect |
| `Lexer.PlainCommentEnd` | kipper-poll/markdone.go:366-382 | Without nesting the comment ends at the first closing mark after the opening one |
| `Lexer.NestedCommentRoundTrip` | kipper-poll/markdone.go:366-382 | With nesting a comment nested to any depth around text without marks ends at its outermost closing mark |
| `Lexer.DollarTagAt` | kipper-poll/markdone.go:320-333 | The loop finds the tag that `DollarTag` defines, and no other |
| `Lexer.DollarTagRoundTrip` | kipper-poll/markdone.go:320-333 | An identifier written between dollars is recognised whole exactly when no identifier byte comes before it and it does not start with a digit |
| `Lexer.PrefixBefore` | kipper-poll/markdone.go:356-362 | The lower-cased identifier directly before a quote, of maximal length |
| `Lexer.ContinuesLiteral` | kipper-poll/markdone.go:387-417 | Whether two literals are adjacent: only separators between them, with the line break PostgreSQL asks for |
| `Literal.ScanLiteral` | kipper-poll/markdone.go:253-288 | The loop returns the chunks and placeholders of the literal, or nothing when it is not closed |
| `Literal.ReadUnit` | kipper-poll/markdone.go:257-285 | One turn of the scan: a doubled quote or an escape pair is taken whole |
| `Literal.ScanLossless` | kipper-poll/markdone.go:253-288 | The chunks and placeholders spell the source between the quotes, the end is in bounds, and the byte after it is not a quote |
| `Literal.ScanWhole` | kipper-poll/markdone.go:253-288 | Every chunk decodes on its own: no escape pair and no doubled quote straddles a chunk boundary |
| `Literal.PlaceholderFacts` | kipper-poll/markdone.go:307-317 | A recognised placeholder has a legal column name and covers exactly its own bytes |
| `Literal.PlaceholderComplete` | kipper-poll/markdone.go:307-317 | Every legal column name written in braces is recognised, with its own end |
| `Literal.DecodeConcat` | kipper-poll/markdone.go:217-239 | Decoding distributes over joining chunks that each decode |
| `Literal.ReadsAs` | kipper-poll/markdone.go:217-239 | A quoted chunk reads back as what the chunk decodes to |
| `Literal.BracedWhole` | kipper-poll/markdone.go:231-235 | A placeholder left as written is itself a chunk that decodes |
| `Literal.DecodeQuoted` | kipper-poll/markdone.go:257-260 | Doubling the quotes of any text and decoding it gives the text back |
| `Render.Bind` | kipper-poll/markdone.go:170-213 | The loop emits the specified query and exactly the values of the bound columns |
| `Render.BindPiece` | kipper-poll/markdone.go:188-211 | One piece: separator, marker number, argument and after-marker flag |
| `Render.Concat` | kipper-poll/markdone.go:217-249 | One literal: one term alone, or all joined in the form of the dialect, with markers numbered on from the arguments already given |
| `Render.CollectTerms` | kipper-poll/markdone.go:218-239 | The loop with its pending chunk emits the specified terms and their values in step |
| `Render.RenderedPresent` | kipper-poll/markdone.go:170-213 | Only present columns are ever bound |
| `UsageRuns.Conservation` | authz/usage.go:65-82 | Over every run of every number of replicas, for each key, day and counter: the latest rollup plus all that is still buffered, drained or failed equals the number of Adds, through conflicts, create races, giving up and restoring |
| `UsageRuns.RunOk` | authz/usage.go:146-296 | Every reachable state keeps the whole invariant: each replica accounts for its own Adds, floors cover what it settled, and each rollup is the sum of what the replicas settled |
| `UsageRuns.RunAdded` | authz/usage.go:65-82 | The ghost count of Adds kept in the state is the number of Count steps in the run |
| `UsageProtocol.StepKeptAt` | authz/usage.go:146-228 | Every step keeps added = settled + buffered + drained + failed for the replica taking it |
| `UsageProtocol.StepFlooredAt` | authz/usage.go:118-126 | Every step keeps each counted floor at least what this replica settled, up to the batch landed and not yet floored, and at most the latest rollup |
| `UsageProtocol.StepWorkOk` | authz/usage.go:247-296 | The flusher always works on a drained batch, tries at most five times, and what it read is the rollup at the version it read |
| `UsageProtocol.LandHist` | authz/usage.go:270-290 | A write lands only on the version that was read, and then the rollup grows by exactly the batch; otherwise nothing changes |
| `QuotaBound.UseBelowTotal` | authz/authorizer.go:189-224 | In every reachable state the use a replica computes is never more than the true allowed total of all replicas for the period |
| `QuotaBound.UseCoversOwn` | authz/authorizer.go:189-224 | The use a replica computes, with its in-flight batch, is at least its own allowed total for the period |
| `QuotaBound.AdmissionBound` | authz/authorizer.go:141-164 | Right after any admission in any reachable state, the replica's own total for the period is at most the quota plus its in-flight batch |
| `QuotaBound.UseGrows` | authz/authorizer.go:189-224 | Counting an admitted request raises the computed use by exactly one |
| `QuotaBound.TodayCounted` | authz/authorizer.go:228-238 | The day an admission is counted under lies in the period the quota is taken over |
| `QuotaBound.PruneAgrees` | authz/usage.go:102-116 | The pruning of the step system is the pruning of the buffer |
| `Quota.PeriodUsage` | authz/authorizer.go:189-224 | The loops over cached rollups, left floors and buffered counts compute, for each day of the period, the larger of shown and floor, plus the buffered counts, each day once |
| `Quota.AddListed` | authz/authorizer.go:203-217 | The first loop: every listed day of the period is counted once at the larger of its two totals and its floor is used up |
| `Quota.AddUnlisted` | authz/authorizer.go:218-221 | The second loop: the floors left over are counted once each |
| `Flush.FlushOne` | authz/usage.go:247-296 | Success adds exactly the batch to the one rollup and raises the floor to the written total; failure adds nothing, whatever others write in between, and comes only from a failed call or five refused writes; all of it is a run of the protocol that settles or fails this one entry |
| `Flush.TryOnce` | authz/usage.go:249-294 | One attempt: it wrote the total that is read plus the batch, was refused for a conflict or a raced create, or failed, and the protocol took its read and its write |
| `Flush.WriteBack` | authz/usage.go:250-286 | A missing rollup is created with the batch and a read one replaced by its sum |
| `Shadow.FollowKeeps` | authz/usage.go:118-296 | Whatever a flush does and others write in between, the replica that follows it keeps, for each key, added = settled + buffered + drained + failed, and a floor that covers what it settled and is no higher than the rollup |
| `Flush.FlushEach` | authz/usage.go:217-224 | Each drained batch has landed exactly once, with its floor raised, or is reported as failed, the protocol has settled or failed the same entries, and all requests of the meantime are counted |
| `Flush.CountSome` | authz/usage.go:65-82 | Requests counted during a flush reach the buffer and the protocol alike, and leave the flush alone |
| `Flush.PruneOld` | authz/usage.go:208-211 | The pruning at the start of a flush drops the same floors from the buffer and in the protocol |
| `Flush.FlushAll` | authz/usage.go:208-228 | After a flush each key has as much on the server and in the buffer together as before and as was counted meanwhile, at any points between the entries; floors are pruned and then raised exactly for what landed, something fails only after a failed call or five refusals, and all of it is a run of the protocol by a replica with the same counts and floors: a prune, a drain, the attempts, the requests counted, a restore |
| `Flush.FlushBuffer` | authz/usage.go:208-228 | The same for the buffer of a replica, whose rollups are named by key and day |
| `Flush.NewFlusher` | authz/usage.go:182-188 | A replica that starts buffers nothing, and is one the flush can be called on |
| `RollupServer.ApiServer.Create` | authz/usage.go:270-278 | Create succeeds only where there is no object and otherwise changes nothing of ours |
| `RollupServer.ApiServer.Update` | authz/usage.go:283-293 | Update succeeds only on the version that was read |
| `RollupServer.ApiServer.Put` | authz/usage.go:270-294 | A write on top of what was read applies only if the object is still missing or at that version; it then adds exactly the batch, and otherwise nothing |
| `RollupServer.ApiServer.Get` | authz/usage.go:250-281 | A direct read returns the object as it is, or not found |
| `Usage.UsageBuffer.Add` | authz/usage.go:65-82 | One counter of one key grows by one and nothing else changes |
| `Usage.UsageBuffer.UnflushedAllowed` | authz/usage.go:87-100 | The sum of the buffered allowed counts of the key from the start day on |
| `Usage.UsageBuffer.PruneFloors` | authz/usage.go:108-116 | Keeps exactly the floors whose day parses and is not before the cutoff |
| `Usage.UsageBuffer.SetFloor` | authz/usage.go:120-126 | A floor only ever rises |
| `Usage.UsageBuffer.AllowedFloors` | authz/usage.go:130-143 | The floors of the key from the start day on, by day |
| `Usage.UsageBuffer.Drain` | authz/usage.go:146-152 | Hands over all counts and leaves none |
| `Usage.UsageBuffer.Restore` | authz/usage.go:156-169 | Adds failed batches to whatever was counted meanwhile |
| `Usage.MergedAt` | authz/usage.go:156-169 | Restoring adds counter by counter, for every key |
| `Usage.CompactDay` | authz/usage.go:237-245 | The day without its dashes |
| `Usage.RollupNameInjective` | authz/usage.go:230-235 | Different prefixes or days never share a rollup name |
| `Period.PeriodContains` | authz/authorizer.go:226-252 | Every instant lies in its period, a period is at most 31 days, and its end starts the next one |
| `Period.PeriodShared` | authz/authorizer.go:226-252 | All instants of a period have the same start and the same end |
| `Period.PeriodMonotone` | authz/authorizer.go:226-252 | A later instant never has an earlier period start |
| `Period.PrunedIsUncounted` | authz/usage.go:102-116 | A floor pruned at 40 days is never in a period that is still counted, then or later |
| `Period.RetryAfterLands` | authz/server.go:73-76 | The whole-second Retry-After lands at the start of the next period and is the least such number of seconds |
| `Calendar.DateUnique` | authz/authorizer.go:226-252 | A day number has one date only |
| `Calendar.ParseFormat` | authz/usage.go:95-97 | A day written in the rollup layout parses back to itself |
| `LeaseProtocol.MutualExclusion` | console-api/controller_lease.go:82-126 | Over all runs no two processes have leader-only work running together |
| `LeaseProtocol.ExclusionNeedsSlack` | console-api/main.go:1294-1297 | Exclusion holds over all runs if and only if the renew deadline plus the watchdog lateness is below the Lease duration |
| `LeaseProtocol.OverrunBreaks` | console-api/main.go:1294-1297 | A concrete run with two leaders when the lateness reaches the margin |
| `LeaseProtocol.RenewedBeforeObserved` | console-api/controller_lease.go:54-77 | Whatever the timing, the recorded renewal time is never later than any other process's observation of that write |
| `LeaseProtocol.RunOk` | console-api/controller_lease.go:54-144 | The invariant behind exclusion: while a process holds, the Lease names it and no write in flight can take it away |
| `Lease.HeldLease.Create` | console-api/controller_lease.go:54-58 | The send time is recorded exactly when the create succeeded and names this process |
| `Lease.HeldLease.Update` | console-api/controller_lease.go:63-68 | The same for a renewal, and a refused write leaves the Lease to others |
| `Lease.HeldLease.Note` | console-api/controller_lease.go:70-77 | Only a success for this holder moves the recorded time |
| `Lease.HeldLease.Release` | console-api/controller_lease.go:132-144 | A release clears the holder in a record this process was holding, if no one wrote in between; otherwise the Lease is left to others, and then another process holds it or a call was answered with an error |
| `Lease.RunControllerManager` | console-api/controller_lease.go:99-126 | The loop reports a loss at the first check or stop that finds the Lease not current or the stop unasked, releases only after a drained shutdown, and never writes otherwise |
| `Lease.WatchedMayRun` | console-api/controller_lease.go:82-126 | A process whose watchdog has reported no loss, with checks no further apart than the slack, is one for which the protocol lets time pass |
| `Lease.NotedIsAccepted` | console-api/controller_lease.go:54-77 | The time noted for a successful write is the one the process of the protocol notes |
| `Lease.StoppedInTime` | console-api/controller_lease.go:82-86 | While the watchdog has not reported a loss, and checks come at most a gap apart, the last renewal is younger than the deadline plus the gap |
| `AlertRuns.NoSilentSuppression` | console-api/controller/resource_controller.go:242-256 | In every run each committed mark or transition belongs to an alert the store accepted, or to one it already held since the episode began |
| `AlertRuns.BacklogTold` | console-api/controller/resource_controller.go:817-825 | After any run, a backlog of persisting problems met by further ticks is in the store, each problem exactly once, if and only if it is no larger than the successful writes times the cap, while the ticks fit in the cooldown |
| `AlertRuns.EachIsTold` | console-api/controller/resource_controller.go:242-256 | In particular each of them has its entry among those accepted since |
| `AlertRuns.BacklogDrains` | console-api/controller/resource_controller.go:233-256 | After any failed and successful writes exactly the problems at the end of the list, cap by cap, are in the store, once each, and marked |
| `AlertRuns.StageDue` | console-api/controller/resource_controller.go:2025-2070 | The check stages each due problem once with its own mark |
| `AlertRuns.LeftIs` | console-api/controller/resource_controller.go:817-825 | What a number of successful writes leaves untold, in closed form |
| `AlertRuns.Serve` | console-api/controller/resource_controller.go:233-256 | The controller and its store themselves, over any ticks with lost reads, cleared state and failed writes, end with the suppression and the entries of the runs |
| `Alerts.StoredSince` | console-api/controller/autoscaling_alerts.go:223-236 | Whether an entry with the same place, action and, for readiness, reason was stored at or after the episode began, to the second |
| `Alerts.ResourceController.UnstoredEpisodes` | console-api/controller/autoscaling_alerts.go:50-69 | Splits due episodes into those to store and those already stored, and commits only the latter |
| `Alerts.ResourceController.CommitBatches` | console-api/controller/resource_controller.go:828-843 | Applies marks and transitions batch by batch, in order |
| `Alerts.ResourceController.Tick` | console-api/controller/resource_controller.go:233-256 | The newest alerts up to the cap are stored in one write, and their state commits only when that write succeeds |
| `Alerts.AlertStore.AddAlerts` | console-api/controller/resource_controller.go:251-255 | A write stores all entries or none |
| `CrashLoopRuns.HourApart` | console-api/controller/resource_controller.go:1959-1977 | In every run a stored crash-loop alert comes at least 60 minutes after any earlier stored warning, critical or read-only alert of the workload |
| `CrashLoopRuns.DayApart` | console-api/controller/crashloop_escalation.go:105-114 | A stored persisting alert comes at least 24 hours after any earlier stored critical alert of the same episode |
| `CrashLoopRuns.EscalatesInTime` | console-api/controller/crashloop_escalation.go:89-115 | A loop seen failing on every tick with successful writes has been told as critical once seven hours have passed since it was first seen |
| `CrashLoopRuns.AllClearWasTold` | console-api/controller/crashloop_escalation.go:135-141 | A resolved alert is stored only for an episode for which a critical one was |
| `CrashLoopRuns.SuppressionWasStored` | console-api/controller/crashloop_escalation.go:143-152 | In every run the cooldown mark is the time of a stored alert, and an escalated episode has a stored critical alert |
| `CrashLoopRuns.CrossingStored` | console-api/controller/resource_controller.go:1959-1977 | In any run, the tick on which a failing loop is past six hours and not yet told as critical stores a critical alert exactly when the last stored alert but an all-clear is an hour old or the logs show a read-only volume, and otherwise stores nothing |
| `CrashLoopRuns.CrossingAlerts` | console-api/controller/crashloop_escalation.go:89-115 | The same for one observation and any mark, with the kind of the alert |
| `CrashLoopRuns.EscalationWaits` | console-api/controller/resource_controller.go:1967-1973 | A run in which the six-hour threshold is crossed, the stage is due, and nothing is said because of the hourly floor |
| `CrashLoopRuns.CriticalApart` | console-api/controller/crashloop_escalation.go:624-656 | In every run a stored critical alert less than a day after another critical one of its episode is that episode's only read-only diagnosis |
| `CrashLoopRuns.CriticalSoon` | console-api/controller/crashloop_escalation.go:624-656 | In every run, within a day of a critical alert of the open episode, a tick whose write succeeds stores another critical alert of it if and only if the workload is seen waiting and failing, not for memory alone and not restarted, with a read-only log the episode has not been diagnosed by |
| `CrashLoopRuns.DiagnosisOnce` | console-api/controller/crashloop_escalation.go:634-656 | The read-only diagnosis is stored once per episode |
| `CrashLoopRuns.DiagnosisDoesNotWait` | console-api/controller/resource_controller.go:1959-1971 | A run in which a read-only diagnosis, itself critical, follows a critical alert by a minute |
| `CrashLoopRuns.ObserveJustified` | console-api/controller/resource_controller.go:1908-1979 | Whatever is observed, the alert built is one the cooldown, the cadence and the episode allow, and the first-seen time is never moved |
| `CrashLoopRuns.Serve` | console-api/controller/resource_controller.go:1959-1977 | The tracker itself, over any ticks with sweeps, stops, restarts and failed writes, keeps the mark and the episode and stores the alerts of the runs |
| `CrashLoop.Tracker.CheckWorkload` | console-api/controller/resource_controller.go:1914-1978 | The dispatch on waiting, pulling, out-of-memory, floor and cadence gives the specified episode and alert, for this workload only |
| `CrashLoop.Tracker.CrashLoopAlert` | console-api/controller/crashloop_escalation.go:152-224 | The alert, its stage and the episode left behind; a staged alert leaves its transition to the commit |
| `CrashLoop.Tracker.ObserveRecovery` | console-api/controller/crashloop_escalation.go:230-288 | Ten clean minutes close the episode, with an all-clear only if it had escalated |
| `CrashLoop.Tracker.TouchEpisode` | console-api/controller/crashloop_escalation.go:294-304 | Keeps the first-seen time and restarts the recovery |
| `CrashLoop.Tracker.HoldEpisode` | console-api/controller/crashloop_escalation.go:363-370 | Restarts the recovery of an open episode and opens none |
| `CrashLoop.Tracker.IsStillClean` | console-api/controller/crashloop_escalation.go:326-339 | False exactly when a known pod restarted since the last look |
| `CrashLoop.Tracker.Commit` | console-api/controller/resource_controller.go:828-843 | A stored alert marks the cooldown, unless it is an all-clear, and applies its transition, for this workload only |
| `CrashLoop.Tracker.PruneAlertState` | console-api/controller/resource_controller.go:870-896 | Drops marks older than a day and episodes unseen for a day, and nothing else |
| `Evidence.Fair` | console-api/controller/readonly_volume.go:159-231 | If every owed workload asks once in each tick, the one at position p is admitted within p+1 ticks |
| `Evidence.RefusedIsServed` | console-api/controller/readonly_volume.go:206-231 | A refused workload is admitted within as many further ticks as its debt queue is long, under the same condition |
| `Evidence.SilentHeadStarves` | console-api/controller/readonly_volume.go:201-205 | The condition is needed: if the head of the queue stops asking and ticks are late, no one is admitted, ever |
| `Evidence.LateTick` | console-api/controller/readonly_volume.go:193-210 | In a tick that is late from the start someone is admitted if and only if the head of the queue asks |
| `Evidence.OneOverrun` | console-api/controller/readonly_volume.go:186-205 | At most one admission of a tick happens past the deadline |
| `Evidence.RefusedIsOwed` | console-api/controller/readonly_volume.go:206-231 | After a tick in which each workload asks once, one that asked is owed if and only if it was refused |
| `Evidence.DebtDistinct` | console-api/controller/readonly_volume.go:221-231 | The queue never holds a workload twice |
| `Evidence.AskingTwice` | console-api/controller/readonly_volume.go:206-231 | Both facts fail when a workload asks twice in one tick: a duplicate, and a refused workload that is not owed |
| `Evidence.EvidenceBudget.Admit` | console-api/controller/readonly_volume.go:193-210 | Admission and the new ledger, in all four cases |
| `Evidence.EvidenceBudget.IsOwed` | console-api/controller/readonly_volume.go:212-219 | Membership in the debt carried in |
| `Evidence.EvidenceBudget.Carry` | console-api/controller/readonly_volume.go:223-231 | What is unpaid in its order, then what this tick added |
| `SizingRuns.NoFlapping` | console-api/controller/resource_controller.go:1439-1594 | Under constant usage, and with any forgetting of history in between, the request over the whole run only rises or only falls |
| `SizingRuns.EvaluationsNeverFlap` | console-api/controller/resource_controller.go:1439-1594 | Over the evaluations of a whole container under constant usage the CPU request moves in one direction only, and so does the memory request, though a change of either starts the history of both over |
| `SizingRuns.EvaluationsAreRuns` | console-api/controller/resource_controller.go:1439-1594 | Each resource of a container goes by its own rule, forgetting when the container does |
| `SizingRuns.Settles` | console-api/controller/resource_controller.go:1439-1594 | It reaches a fixed point within an explicit number of evaluations |
| `SizingRuns.EvaluationSettles` | console-api/controller/resource_controller.go:1282-1594 | The whole container, CPU and memory together, reaches its fixed point within an explicit number of evaluations, though a change of either starts the shared history over |
| `SizingRuns.EvaluationLowersMeasure` | console-api/controller/tuning.go:422-433 | Every evaluation of a container that is not at rest comes closer to it, with the history started over by any change |
| `SizingRuns.EvaluationsAreSteps` | console-api/controller/resource_controller.go:1483-1591 | Where changes are not applied and nothing starts the history over, repeated evaluation is two independent runs of the sizing rule |
| `SizingRuns.RaisedNeverFalls` | console-api/controller/resource_controller.go:1489-1535 | A request that was just raised is not low enough to be lowered at the same usage, in spite of 1.5x and rounding |
| `SizingRuns.LoweredNeverRises` | console-api/controller/resource_controller.go:1510-1535 | A request that was just lowered is not hot enough to be raised at the same usage, in spite of halving and rounding |
| `SizingRuns.StepLowersMeasure` | console-api/controller/resource_controller.go:1448-1462 | Every evaluation that is not at the fixed point comes closer to it, history filling up included |
| `SizingRuns.LimitsCover` | console-api/controller/resource_controller.go:1494-1500 | If requests were within limits they are after an evaluation |
| `SizingRuns.DefaultsWithin` | console-api/controller/resource_controller.go:1811-1829 | Every profile's CPU request is within its limit |
| `SizingRuns.OOMRaiseBounds` | console-api/controller/resource_controller.go:1355-1392 | Below the cap an out-of-memory raise exceeds both request and limit, it never exceeds the cap by a rounding unit or more, and a refused raise means the cap was reached |
| `Sizing.Sizer.Evaluate` | console-api/controller/resource_controller.go:1282-1594 | Which of default, out-of-memory raise, nothing and usage-based sizing happens, and the whole container and history after it |
| `Sizing.Sizer.NewOOM` | console-api/controller/resource_controller.go:1319-1345 | The newest out-of-memory kill, if it is new and recent |
| `Sizing.Sizer.AverageUsage` | console-api/controller/resource_controller.go:1409-1446 | The integer average over real pods past the grace period |
| `Sizing.SizeMemory` | console-api/controller/resource_controller.go:1483-1535 | The new memory request and limit |
| `Sizing.SizeCPU` | console-api/controller/resource_controller.go:1537-1591 | The new CPU request and limit, with the profile's limit floor |
| `Sizing.ConsistentHigh` | console-api/controller/resource_controller.go:1748-1773 | Every kept observation is above 80 percent |
| `Sizing.ConsistentLow` | console-api/controller/resource_controller.go:1757-1782 | Every kept observation is below 20 percent |
| `Sizing.RoundUpBounds` | console-api/controller/resource_controller.go:1784-1795 | Rounding up adds less than a unit |
| `Sizing.RaisedGrows` | console-api/controller/resource_controller.go:1491-1492 | A raise always raises |
| `ObserveFacts.PodOrderDoesNotMatter` | console-api/controller/crashloop_escalation.go:484-584 | Permuting the pods leaves which workloads are seen, allClean, restarts, per-pod counts, the multisets of failing and pulling replicas, and whether the workload waits or crash-loops unchanged |
| `ObserveFacts.ObservationIs` | console-api/controller/crashloop_escalation.go:487-584 | Each of these equals its direct definition over the containers of the pods not being deleted |
| `ObserveFacts.CleanAt` | console-api/controller/crashloop_escalation.go:525-554 | allClean means that every expected container of the workload has a status and is clean |
| `ObserveFacts.WaitingAt` | console-api/controller/crashloop_escalation.go:556-575 | The reason is a crash loop exactly when some replica crash-loops, and empty exactly when none waits for a named reason |
| `Observe.ObserveWorkloads` | console-api/controller/crashloop_escalation.go:487-584 | The nested loops return the reduced observations in first-seen order |
| `Observe.Scan.NotePod` | console-api/controller/crashloop_escalation.go:491-577 | One pod: skipped when deleted, else missing containers before published ones |
| `Observe.Scan.NoteMissing` | console-api/controller/crashloop_escalation.go:507-527 | A container that is expected and has no status makes its workload unclean |
| `Observe.Scan.NotePublished` | console-api/controller/crashloop_escalation.go:529-576 | Every published status is noted in order |
| `Observe.Scan.Note` | console-api/controller/crashloop_escalation.go:540-575 | One status: seeding, counting, ranking of the reason and of the replica described |
| `Observe.OrderHeld` | console-api/controller/crashloop_escalation.go:488-527 | The order lists every key once |
| `BuildRuns.NeverBackwardsExactly` | console-api/controllers/build_controller.go:95-172 | Over every run, in whatever order and within whatever seconds jobs are created, the deployed build never moves backwards in (creation time, name) between any two moments if and only if it is covered before every reconcile that applies a completion |
| `BuildRuns.NeverBackwards` | console-api/controllers/build_controller.go:95-172 | In every run whose removals and status clearings keep the deployed build covered and whose jobs are created later than the deployed one, the deployed build never moves backwards in (creation time, name) |
| `BuildRuns.StepExact` | console-api/controllers/build_controller.go:51-214 | Any one step does not move the App backwards if and only if it applies no completion or the deployed build is covered |
| `BuildRuns.ReconcileForward` | console-api/controllers/build_controller.go:51-214 | One reconcile, with any failed writes, never moves a covered App backwards and keeps it covered |
| `BuildRuns.PassingIsNew` | console-api/controllers/build_controller.go:95-112 | A job, labelled or not, that passes both order checks is at least as new as the deployed build if a job with its label or an asked-for saved order guards that build |
| `BuildRuns.ForwardIffGuarded` | console-api/controllers/build_controller.go:92-172 | For any App and jobs: a succeeded job, labelled or not, that every guard lets pass does not move the App backwards if and only if a job with the same label at least as new as the deployed build is listed, or the tracked job is gone and the status remembers that build or a newer one |
| `BuildRuns.UncoveredCanGoBack` | console-api/controllers/build_controller.go:101-112 | From any uncovered state, every listed job of the App that has not failed has a continuation in which it replaces the newer deployed build |
| `BuildRuns.RetryingIsNotEnough` | console-api/controllers/build_controller.go:101-107 | A concrete run without a removal during a pending retry that goes backwards |
| `BuildRuns.StepForward` | console-api/controllers/build_controller.go:51-214 | Any step never moves a covered App backwards, and only removals and clearings can uncover it |
| `Builds.ImageOnlyFromCurrent` | console-api/controllers/build_controller.go:92-158 | The image only ever changes to that of a succeeded job of this App generation, built from the current source and not superseded |
| `Builds.RetryCompletes` | console-api/controllers/build_controller.go:140-172 | A reconcile that failed at any of its calls ends after its retry exactly where it would have ended at once, history included |
| `Builds.BuildReconciler.Reconcile` | console-api/controllers/build_controller.go:51-214 | The App and the error after any job, in every branch, whichever of its reads, the job listing and the two writes fail |
| `Builds.BuildReconciler.SupersededByNewerBuild` | console-api/controllers/build_controller.go:232-267 | Whether a newer job of the same App exists, and whether the tracked job is listed |
| `Builds.BuildReconciler.UpdateBuildStatus` | console-api/controllers/build_controller.go:318-353 | Writes the phase once, for the App the job belongs to; a failed second read or write is an error and changes nothing |
| `Builds.BuildReconciler.RecordDeployHistory` | console-api/controllers/build_controller.go:368-407 | Adds the build at the front with the next revision, keeps ten, and adds none that is already there |
| `Builds.RecordedOk` | console-api/controllers/build_controller.go:368-407 | The history keeps at most ten entries, falling revisions, no build twice, and holds the recorded build |
| `Builds.RecordedOnce` | console-api/controllers/build_controller.go:374-381 | Recording a build again changes nothing |
| `CacheRuns.HoldsMostRecent` | gateway/proxy.go:128-160 | After any calls the cache holds exactly the cap most recently used distinct keys, in recency order |
| `CacheRuns.HitReturnsEntered` | gateway/proxy.go:128-160 | A held key returns the proxy it last entered with |
| `CacheRuns.NothingStranded` | gateway/proxy.go:138-160 | Every proxy ever given is either held or closed, exactly once |
| `CacheRuns.Serve` | gateway/proxy.go:128-160 | The cache itself, over any gets and adds, answers each as the reference says: the proxy of a key that should be held, the new one for a key that enters, and nothing for a miss |
| `ProxyCache.Cache.Get` | gateway/proxy.go:128-136 | A hit returns the held proxy and moves it to the front; a miss changes nothing |
| `ProxyCache.Cache.Add` | gateway/proxy.go:141-160 | The held proxy wins and the new one is closed; otherwise the new one enters and the oldest leaves over the cap |
| `ProxyCache.Cache.MoveToFront` | gateway/proxy.go:144-148 | Map and list stay one to one and only the order changes |
| `ProxyCache.Cache.Insert` | gateway/proxy.go:149-159 | A new key enters at the front |
| `ProxyCache.Cache.Evict` | gateway/proxy.go:151-158 | The last element leaves list and map and is closed |
| `Slots.Gate.EnterCluster` | gateway/proxy.go:246-266 | A slot is given exactly while fewer than the limit are live; a cap of zero or less gives one always |
| `Slots.Gate.Release` | gateway/proxy.go:264-266 | A release lowers the live count of its own cluster by one |
| `Slots.Gate.ForgetCluster` | gateway/proxy.go:271-280 | A counter is dropped only when nobody holds it |
| `Slots.Gate.Install` | gateway/proxy.go:253-260 | The counter of a cluster is found or made, and shows how many slots are live |
| `SlotRuns.Serve` | gateway/proxy.go:246-280 | For any sequence of requests entering, finishing and clusters being forgotten, exactly those requests are let in, and are live at the end, that a limit knowing nothing of counters lets in: forgetting a counter is never noticed |
| `SlotRuns.LiveWithinLimit` | gateway/proxy.go:246-280 | Over every such sequence no cluster has more live requests than the limit |
| `SpdxFacts.ParsePrinted` | scripts/check-licenses.py:164-210 | Parsing the tokens of any expression consumes them all and returns its evaluation, for every classification of licenses |
| `SpdxFacts.ParseMinimalAndFull` | scripts/check-licenses.py:178-210 | The same printed with the fewest or with all parentheses, WITH over AND over OR |
| `SpdxFacts.ParseMonotone` | scripts/check-licenses.py:178-210 | On every token list: raising licenses never lowers the result, and what is left unread does not depend on them |
| `SpdxFacts.UnreadTokens` | scripts/check-licenses.py:178-215 | What follows a complete expression is left unread and does not change the result, unless it goes on with an operator |
| `SpdxText.ClassifyText` | scripts/check-licenses.py:164-173 | From text to category: slashes are OR, and no token at all is UNKNOWN |
| `SpdxText.ClassifyWritten` | scripts/check-licenses.py:164-215 | An expression written with spaces is classified by its evaluation |
| `SpdxText.TokenizeSpaced` | scripts/check-licenses.py:170 | Tokens written with spaces are read back |
| `SpdxText.SlashIsOr` | scripts/check-licenses.py:170 | `A/B` reads as `A OR B` |
| `Spdx.ClassifySpdx` | scripts/check-licenses.py:164-215 | The parser object returns the category of the grammar specification |
| `Spdx.Parser.ParseOr` | scripts/check-licenses.py:178-183 | Consumes what the grammar consumes and returns the best arm; terminates on every token list |
| `Spdx.Parser.ParseAnd` | scripts/check-licenses.py:185-190 | The same for AND, the worst arm |
| `Spdx.Parser.ParseWith` | scripts/check-licenses.py:192-197 | The same for WITH, the worst arm |
| `Spdx.Parser.ParseAtom` | scripts/check-licenses.py:199-210 | A parenthesis, a license or the end of the tokens; a missing closing parenthesis is forgiven |
| `Spdx.CombineAllIs` | scripts/check-licenses.py:71-82 | Combining arms gives one of them, and the extreme one |
| `Spdx.Worst` | scripts/check-licenses.py:71-75 | The strictest category present, permissive for none |
| `Spdx.Best` | scripts/check-licenses.py:78-82 | The loosest category present, unknown for none |
| `Freshness.Freshness.Fresh` | authz/freshness.go:190-198 | While it holds, the last successful probe ended less than the bound ago, and every cache reflects every write committed before that probe began |
| `Freshness.Freshness.Probe` | authz/freshness.go:83-132 | A probe either leaves the clock, and then a call failed, three writes were refused or five seconds passed, or sets it to its end; then every cache reflects every write committed before it began and, if its value was repeated nowhere, every write logged before it, those of its own instant included |
| `Freshness.Freshness.AwaitAll` | authz/freshness.go:94-131 | All canaries are observed within five seconds, and then every cache reflects every write committed before the start, or a call failed or the time is up |
| `Freshness.Freshness.StampAll` | authz/freshness.go:87-92 | Every canary is written, or one could not be, and then a call failed or three writes were refused |
| `Freshness.LaterIsUnrepeated` | authz/freshness.go:87-92 | A value later than that of every probe before is at no point of any canary's log |
| `Freshness.Freshness.Look` | authz/freshness.go:94-131 | A canary is observed exactly if it was before or its cache shows the value at some moment of the look, failed reads apart; every cache observed has all writes from before the start |
| `Freshness.Freshness.WriteCanary` | authz/freshness.go:137-172 | Success stamps this replica's value on the canary as it was just before the write: every other replica's note of the last hour is kept unchanged and nothing else is added; it fails only when a call does or all three writes are refused |
| `Freshness.Freshness.TryCanary` | authz/freshness.go:139-169 | One attempt of that: stamped, refused for a conflict, or failed |
| `Freshness.SameVersionNotes` | authz/freshness.go:161-169 | A canary at the version that was read still has the notes that were read, whatever else was written |
| `Freshness.Freshness.LookAt` | authz/freshness.go:103-113 | One canary of a look |
| `Freshness.Freshness.Idle` | authz/freshness.go:190-198 | Nothing said about the caches is lost as time passes and others write |
| `Freshness.SeenIsCurrent` | authz/freshness.go:106-111 | A note is no later than its write, so a cache that shows the value of a probe, this one or an earlier, has every write committed before the time the value stands for |
| `Freshness.SeenIsPast` | authz/freshness.go:106-111 | Seeing an unrepeated value in a cache means the cache has reached everything logged before the probe |
| `Freshness.RepeatedValueDeceives` | authz/freshness.go:87-111 | From any state, a cache can come to show a value before all that is logged now if and only if it has yet to pass a point at which its log carried that value; the writes it then lacks are none from before the time of the value (`SeenIsCurrent`) |

## Left out

- Freshness.Freshness.Fresh: the replica, its API server and its caches go by one clock, which does not go back, and a log holds its writes in the order of their times.
- QuotaBound.AdmissionBound: holds for years 0 to 9999, the years the day layout can write.
- Usage.RollupNameInjective: for days in the written layout, the only ones the buffer is given; any other text loses its dashes.
- Flush.FlushAll: requests are counted between entries; during the calls of one entry the counts are neither read nor changed, so counting there is the same as counting just before.
- Flush.FlushBuffer: for days in the written layout, for the same reason as `RollupNameInjective`.
- UsageRuns.Conservation: an error reply means that the write did not land, no replica loses its buffer in a crash, and no rollup is deleted.
- CrashLoopRuns.EscalatesInTime: ticks are at most a day apart, as the daily sweep needs, and the episode begins at the first failing tick.
- CrashLoop.Tracker.CheckWorkload: image-pull alerts, reading the log (its verdict is a flag of the observation) and the alert texts.
- CrashLoop.Tracker.PruneAlertState: the crash-loop marks and episodes only; the other cooldown maps are swept in the same way, and the CPU windows are not modelled.
- BuildRuns.NeverBackwards: needs `KeepsCover`, which a run may break without ever going back, and which asks that a new job is created in a later second than the deployed one's and that jobs without a label are older than every labelled one; `NeverBackwardsExactly` asks none of it. Job names are compared as order ranks.
- Builds.BuildReconciler.Reconcile: a read that finds the App gone, and the cause of a failed build, which is read from its pods.
- Builds.BuildReconciler.UpdateBuildStatus: nothing replaces the App between the two reads of a reconcile.
- ObserveFacts.PodOrderDoesNotMatter: asks that a pod publishes one restart count per container, which distinct pod names give.
- Evidence.Fair: asks that every owed workload asks once per tick; `SilentHeadStarves` and `AskingTwice` show what happens otherwise.
- Spdx.ClassifySpdx: an expression nested deeper than the interpreter's recursion limit is UNKNOWN in the script and is classified in the model.
- SpdxText.ClassifyText: upper-casing and blanks outside ASCII.
- SizingRuns.NoFlapping: exact integers; the code compares percentages in floating point, which can differ within its rounding. The saturation shortcut, the tuning bounds and the quota ceilings are not part of this model.
- Sizing.Sizer.Evaluate: one container per workload, no saturation shortcut, and the log entries' texts are not part of it.
- Meaning.MarkDoneMeaning: the whole statement around the literals is text to the model; a present column with a null value makes its concatenation null, as in SQL.
- LeaseProtocol.MutualExclusion: one clock for all processes, the takeover rule of the election library taken as given, replies accepted only within the client timeout, and a process identity reused only after the old process has exited.
- Lease.RunControllerManager: the ticker and the stop channel are a sequence of events; the thread that runs the manager is one of them.
- AlertRuns.NoSilentSuppression: the store's own cap is modelled as entries a read no longer shows; the write is all or nothing. The builders of the at-maximum and not-ready episodes and the other alert checks supply arbitrary batches.
- Slots.Gate.EnterCluster: locks and atomics; calls are one at a time.
- ProxyCache.Cache.Add: proxies are numbers and closing one appends it to a list.
- Locks inside one process: every method runs alone.
- The token bucket of the rate limit, key hashing, HTTP handling, TLS pins, log and metric output.
- Writers of the App's image other than the build reconciler (rollback, a direct deploy), deletion and recreation of an App, and the migration that resets a build status.
- Classifying a license by the text of its file, and walking the dependency trees.
- The identity transition of the cluster, the builder and the App controller: mostly object assembly.
