# Fetch portal and command line: a verified model

The repository looks documents up at public sources through rented proxies. A portal
queues jobs for a fleet of workers; a command line does the same from a file. This
project models the parts of both that keep state and proves what they keep.

- **Portal queue** (`JobTables`, `QueueInvariant`, `QueueRuns`, `QueueColumns`, `QueueEvents`,
  `ClaimQuery`, `LeaseHistory`, `LeaseBounds`, `QueueExamples`, `JobRepository`). Jobs pass a gate of five places;
  items are leased to workers under a fence and a retry cap. `JobTables` says what
  each transaction makes of the tables, `JobRepository` carries the transactions out
  statement by statement and is proved against it, `QueueColumns` says what they do to
  each column without naming those definitions, and the other modules prove what holds
  over every run.
- **Planning** (`Documents`, `Planning`). Which input lines become items and which
  known answers a team may reuse.
- **Proxy slots** (`ProxySlots`, `Fleet`, `FleetLimits`, `LaneSession`). Lanes of many
  workers share the slots of the one pooled provider under expiring leases. A call of a
  lane is split where it waits: its effect on the table and its answer are two steps.
- **Dispatch** (`LaneLoops`, `Dispatch`, `CredentialCache`). One worker hands claimed items
  to its idle lanes while the lane loops run on at every await, and caches revealed
  credentials.
- **Circuit breaker** (`Breaker`). Written twice in the repository, as an object and as
  one UPDATE.
- **Retry loop and sessions** (`Fetch`). One document's attempts and the proxy session
  a lane keeps across documents.
- **Resumable runs** (`Outcomes`, `Resume`, `RunHistory`, `UndedupedRuns`, `Merge`). Guarded upserts into
  a state database, repeated runs on it, and the merge of shard databases.
- **Expiring keys** (`Ephemeral`, `Throttle`, `Sessions`). A store with lazy expiry and
  the counters, tokens and browser sessions built on it.
- **Master keys** (`Rewrap`). The key file and the migration of wrapped data keys.

Where the source changes state step by step the model is a class or a method proved
against a specification function, and the theorems are about that function. What lies
outside (the network, a lookup's result, the order in which a database returns tied rows,
rows hidden by `SKIP LOCKED`, the interleaving of other lanes) is a parameter.

`dafny verify dfyconfig.toml` checks the whole project.

## Assumptions

- A database transaction is one atomic step and committed transactions are serialised;
  ids are fresh, `queue_sequence` grows, and rows are not deleted.
- Clocks only grow. Within one module there is one clock, except that a breaker's process
  clock may differ from the wall clock by a constant.
- Exclusive slots assume that a slot in use is renewed before its lease ends and that a
  release that raises had no effect. `FleetLimits` shows that neither can be dropped.
- A claim query answers no more items than it was asked for when it is the portal's own
  (`JobRepository.PostgresJobRepository.ClaimMany`); dispatch is modelled for any answer.
- An admission uses reusable pairs read earlier in the same run; `QueueRuns.ReuseLasts`
  shows that they are still known then.
- Sleeping for a number of seconds takes that long.
- Random tokens, cookies and data keys are never drawn twice.
- Sealing is symbolic: a blob opens under the key that sealed it and no other.

## Where the code and what is said about it differ

- `docs/architecture.md:116-117` says fences stop a late worker after reassignment. A
  fence moves only when a job is cancelled, so a lane whose lease expired may still
  publish when another lane of the same worker claimed the item
  (`LeaseHistory.LateLaneAcceptedExactlyWhen`).
- A publish takes the document and the source from the request. Neither is compared with
  the item (`LeaseBounds.AttachesOwnEntryExactlyWhen`,
  `QueueExamples.MisnamedPublishAccepted`).
- `--sources` may list a source twice; the many-item claim then returns fewer items than
  it could (`ClaimQuery.NestedIsFlatExactlyWhen`, `QueueExamples.ClaimTakesFewer`).
- `docs/sharded-fetch.md:38-41` says status rejects missing outcomes and merge also
  rejects what status does. Status only counts missing outcomes, and a merge keeps
  outcomes outside the manifest (`Merge.MergeIsExpectedExactlyWhen`).
- `packages/portal/portal/admin/rewrap.py:30-31` says a partial run is safe. A user who
  enrolls TOTP again between the query and the update of that row gets the wrapped form
  of the old data key (`Rewrap.PrefixesOpenExactlyWhen`, `Rewrap.ReenrolledSecretIsLost`).
- A request that read a session before a step-up wrote it can bring the older stamp back
  (`Sessions.StampKeptExactlyWhen`).
- `docs/proxies.md:84-86` and `packages/portal/portal/worker/agent.py:58-60` say that a lane
  releases its slot when it becomes idle. Its polls are counted only while it waits, and
  compared only after it worked, which set them to zero: it never closes for being idle
  (`LaneLoops.NoLaneEverCloses`) and keeps its slot until it gets an item of another key
  (`Fleet.SlotKeptUntilOtherKey`).
- The twelve-attempt cap can be overshot when the same document is in the input more than
  once and deduplication is off (`UndedupedRuns.CapHoldsExactlyWhen`).
- Object and UPDATE of the breaker differ from a stored level without a deadline, which
  neither of them writes (`Breaker.ObjectMatchesRowExactlyWhen`).

## Model

| member | source | states |
|---|---|---|
| `QueueRuns.GateThroughoutRun` | packages/portal/portal/repository/jobs.py:351-363 | In every state of every run at most five jobs are active, a job waits only when exactly five are, and every job seen running at any earlier moment was admitted before every job still waiting. |
| `QueueRuns.JobsTellTheTruth` | packages/portal/portal/repository/jobs.py:1201-1253 | In every reachable state a job is queued or running exactly when it has a pending or running item; a failed job has no published item; a completed one has one or all its records were excluded; nothing is ever `cancelling`; a finished job has exactly one terminal event, queued once for each of the three channels; and every notice is for the one terminal event of a job that has ended, with the state it ended in. |
| `QueueRuns.TerminalRowsFrozen` | packages/portal/portal/repository/jobs.py:355-487 | A finished job and an item that is published, excluded, failed or cancelled never change again, whatever transactions follow. |
| `QueueRuns.RunKeepsInv` | packages/portal/portal/repository/jobs.py:336-578 | Every transaction keeps the whole invariant: leases match their running job's fence, attempts stay in range, the gate is full or the queue empty, every terminal change is announced. |
| `QueueRuns.RunAdvances` | packages/portal/portal/repository/jobs.py:249-299 | Between any two moments of a run a job or item row changes only forward: terminal rows stay, fences and attempts never fall, and the identity of a row never changes. |
| `QueueRuns.ReuseLasts` | packages/portal/portal/application/service.py:558-568 | Pairs read as reusable at one moment of a run are still known, with the same entries, at every later one, so an admission may use what an earlier transaction read. |
| `QueueRuns.StepKeepsInv` | packages/portal/portal/repository/jobs.py:899-1064 | One transaction of any kind (admit, cancel, claim, publish) keeps the invariant. |
| `QueueInvariant.PromoteKeeps` | packages/portal/portal/repository/jobs.py:1173-1188 | Filling the free places in queue order leaves the gate full or the queue empty, with every promoted job announced. |
| `QueueInvariant.EndJobKeeps` | packages/portal/portal/repository/jobs.py:1201-1253 | Closing a job writes its one terminal event and its notices and refills the gate without disturbing any other job. |
| `QueueInvariant.SweepKeeps` | packages/portal/portal/repository/jobs.py:1190-1199 | A sweep that finishes any number of jobs, visited in any order, keeps the invariant. |
| `QueueInvariant.ClaimedKeeps` | packages/portal/portal/repository/jobs.py:67-247 | Claiming any set of claimable rows keeps the invariant. |
| `QueueInvariant.PublishedKeeps` | packages/portal/portal/repository/jobs.py:999-1064 | An accepted publish keeps the invariant, including the job it may finish. |
| `QueueInvariant.CancelKeeps` | packages/portal/portal/repository/jobs.py:501-578 | A cancellation keeps the invariant: all live items end with their job and the gate is refilled. |
| `QueueInvariant.AdmittedKeeps` | packages/portal/portal/repository/jobs.py:336-487 | An admission keeps the invariant for every mix of reused, pending and excluded items. |
| `QueueRuns.CancelJobRow` | packages/portal/portal/repository/jobs.py:547-558 | A cancelled job ends with its fence moved past every lease taken while it ran. |
| `QueueRuns.ClaimTakes` | packages/portal/portal/repository/jobs.py:947-997 | A claim takes only rows that were claimable after its own sweep, each once, and never more than the limit. |
| `QueueRuns.ClaimTakesFront` | packages/portal/portal/repository/jobs.py:947-997 | For sources without repetitions the rows a claim takes beyond its affinity rows are exactly as many of the remaining eligible rows as fit, none behind a row it leaves. |
| `QueueColumns.ClaimTakesOldest` | packages/portal/portal/repository/jobs.py:200-247 | Whatever sources it lists, a claim that takes a row beyond its affinity rows and leaves an eligible one takes it of an older job, or of the same job with no higher ordinal. |
| `QueueColumns.KinTakesOldest` | packages/portal/portal/repository/jobs.py:111-150 | The same of its affinity rows, among the eligible rows of that source and credential. |
| `QueueColumns.ClaimTakesFree` | packages/portal/portal/repository/jobs.py:111-247 | Every row a claim takes was pending in a running job, not hidden, its source asked for and its breaker closed; an affinity row has the affinity's source and credential. |
| `QueueColumns.ClaimLeavesNothing` | packages/portal/portal/repository/jobs.py:947-997 | A claim below its limit leaves no eligible row of its sources, unless it lists a source twice. |
| `QueueColumns.ClaimedColumns` | packages/portal/portal/repository/jobs.py:231-247 | The rows taken are leased to the worker for five minutes under their running job's fence, one attempt more, and no other column and no other row changes. |
| `QueueExamples.OlderJobServed` | packages/portal/portal/repository/jobs.py:196-247 | Every claim for one item that finds two running jobs with one item each takes the older job's. |
| `QueueExamples.OlderJobFirst` | packages/portal/portal/repository/jobs.py:196-247 | A run of two admissions and such a claim. |
| `QueueColumns.CancelInRun` | packages/portal/portal/repository/jobs.py:501-578 | In every run a cancellation ends the job of its own team that has not ended, with every live item of it, moves the fence if it ran, and lets queued jobs start; any other request changes nothing at all. |
| `QueueColumns.SweepColumns` | packages/portal/portal/repository/jobs.py:249-279 | Exactly the running rows of running jobs whose lease is over and that are not hidden go back, or retire as `lease_expired` at four attempts; no other row changes. |
| `QueueColumns.PublishColumns` | packages/portal/portal/repository/jobs.py:281-330 | A publish is accepted exactly for the owner of the running lease under the fence of item and running job. After any publish the pair's entry has its status, content and error code, the time and the item's job, and its attempts are in the ledger; after an accepted one the item shows that entry, and after a rejected one nothing else changed. |
| `QueueColumns.AdmitColumns` | packages/portal/portal/repository/jobs.py:336-487 | The new job runs if fewer than five do, waits otherwise, and is complete at once if everything is reused; it has one row for every planned item and every exclusion, with their columns. |
| `QueueColumns.PlanIsStored` | packages/portal/portal/repository/jobs.py:343-473 | Admission stores every planned item in exactly one row, pending or already answered, and every exclusion. |
| `QueueColumns.PromoteColumns` | packages/portal/portal/repository/jobs.py:1173-1188 | Promotion starts queued jobs only, the oldest first, until five are active or none waits. |
| `QueueColumns.FinishColumns` | packages/portal/portal/repository/jobs.py:1201-1253 | A running job without live items is completed if one of its items is published and else failed with `no_results`; any other is left alone. |
| `QueueEvents.LivesToldInRun` | packages/portal/portal/repository/jobs.py:1255-1326 | In every state of every run the event log tells each job's states in order, each once and the present one last, with one cancellation request exactly for a job cancelled while it ran. |
| `ClaimQuery.NestedIsFlat` | packages/portal/portal/repository/jobs.py:152-247 | Top k per source, then per job, then overall is a legal answer to one sort of all eligible rows cut at k, for sources without repetitions. |
| `ClaimQuery.SinglePickIsFlat` | packages/portal/portal/repository/jobs.py:152-194 | The single-item query is the first eligible row in queue order, also when a source is repeated. |
| `ClaimQuery.NestedIsFlatExactlyWhen` | packages/portal/portal/repository/jobs.py:200-247 | The nested limits equal the flat one on every table exactly when no source is listed twice or a single row is asked for. |
| `ClaimQuery.RepeatedSourceUnderclaims` | packages/portal/portal/repository/jobs.py:200-247 | A source listed twice makes the query return a row twice and so fewer items than it could: for every such list and every limit of two or more, a table that one admission makes, its items numbered from one. |
| `QueueExamples.ClaimTakesFewer` | packages/portal/portal/repository/jobs.py:947-997 | For every such list and limit, a run in which k items are admitted and the claim for k of them takes fewer although nothing is in its way. |
| `ClaimQuery.TopsDifferByTies` | packages/portal/portal/repository/jobs.py:196-247 | Two legal answers to one ORDER BY and LIMIT differ only between rows that tie. |
| `ClaimQuery.TopAbsorbs` | packages/portal/portal/repository/jobs.py:200-247 | Cutting one part of the pool at k first leaves the legal answers of the whole as they were. |
| `ClaimQuery.NestedTopsAbsorb` | packages/portal/portal/repository/jobs.py:200-247 | The same for any number of parts cut first, by induction over them. |
| `ClaimQuery.SortedPrefixIsTop` | packages/portal/portal/repository/jobs.py:200-247 | Sorting the pool and taking the first k is a legal answer. |
| `LeaseHistory.AcceptedByLatestClaimer` | packages/portal/portal/repository/jobs.py:281-299 | A publish is accepted only from the worker of the item's latest claim, with that claim not swept since and its job never cancelled. |
| `LeaseHistory.PublishedOnce` | packages/portal/portal/repository/jobs.py:281-299 | Over any run an item has at most one accepted publish. |
| `LeaseHistory.RejectedStillObserves` | packages/portal/portal/repository/jobs.py:999-1064 | A rejected publish leaves jobs, items, events and notices as they were while the entry upsert and the attempt ledger still take effect. |
| `LeaseHistory.RunningHasClaim` | packages/portal/portal/repository/jobs.py:249-279 | Every running item has a claim that nothing has touched since, and is leased as that claim left it. |
| `LeaseHistory.AttemptsCountClaims` | packages/portal/portal/repository/jobs.py:67-108 | Only claims raise the attempt counter, so it numbers an item's leases. |
| `LeaseHistory.LateLaneAcceptedExactlyWhen` | packages/portal/portal/repository/jobs.py:281-299 | A lane with the lease of an earlier claim is accepted exactly when the item is running and its own worker owns the running lease, whichever lane took it; so it is accepted with a lease it lost exactly when the same worker claimed the item again. |
| `LeaseHistory.LateLaneAccepted` | packages/portal/portal/repository/jobs.py:281-299 | A concrete run in which an item expires, is claimed again by another lane of the same worker, and the first lane's publish is accepted. |
| `LeaseBounds.TransitionsBounded` | packages/portal/portal/repository/jobs.py:249-279 | Any run makes at most eight item transitions for each item admitted to be fetched, counting claims, expiries, publishes and cancellations. |
| `LeaseBounds.RowChangesBounded` | packages/portal/portal/repository/jobs.py:249-279 | So over any run item rows change at most eight times for each row that came in to be fetched, however the changes came about. |
| `LeaseBounds.StepSpends` | packages/portal/portal/repository/jobs.py:92-108 | Each transaction pays for its transitions with a measure of the items' remaining leases that only admissions raise. |
| `LeaseBounds.AnswerHasSource` | packages/portal/portal/repository/entries.py:151-201 | By induction over runs every published item, reused or fetched, goes back to an accepted publish of the same team's item for the same document and source, with the same entry. |
| `LeaseBounds.EntriesOkInRun` | packages/portal/portal/repository/jobs.py:313-330 | In every run, whoever publishes what, no two (document, source) pairs share an entry. |
| `LeaseBounds.AttachesOwnEntryExactlyWhen` | packages/portal/portal/repository/jobs.py:999-1064 | In every run the entry an accepted publish attaches is the item's own exactly when the request names the item's document and source, which the fence does not check. |
| `QueueExamples.MisnamedPublishAccepted` | packages/portal/portal/repository/jobs.py:999-1064 | A run in which a publish that names another document is accepted and the item shows that document's entry. |
| `LeaseBounds.HonestRunsOwnEntries` | packages/portal/portal/repository/jobs.py:313-330 | When workers publish what they leased, every published item of every run shows its own pair's entry. |
| `JobRepository.PostgresJobRepository.AdmitSubmission` | packages/portal/portal/repository/jobs.py:336-487 | The statements of an admission, one row at a time, leave exactly the tables the admission transaction is specified to leave: the new job, a row for every planned item and exclusion with their columns, and nothing else. |
| `JobRepository.PostgresJobRepository.CancelJob` | packages/portal/portal/repository/jobs.py:501-578 | An unknown job or another team's is not found, and then, as for a job that has ended, nothing changes. Otherwise the job is cancelled, no live item of it remains, its fence moves if it ran, and only queued jobs that start change besides. |
| `JobRepository.PostgresJobRepository.ClaimMany` | packages/portal/portal/repository/jobs.py:899-997 | Sweep, affinity query and general query form one legal claim transaction. Each row handed out is a stored row of its own, leased to the worker for five minutes, with that row's columns and its job's credential, and a publish under the fence handed out is let through. Nothing eligible that is left belongs before a row handed out, nothing is left below the limit unless a source repeats, and every other row is as the sweep left it. A limit below one claims nothing, and an empty or unstable source list is the error the source raises. |
| `JobRepository.PostgresJobRepository.PublishResult` | packages/portal/portal/repository/jobs.py:999-1064 | The statements of a publish leave exactly the specified tables, accepted or not: the pair's entry refreshed, the attempts appended, and the item published exactly for the holder of its lease and fence; an unknown item is an error and changes nothing. |
| `JobRepository.PostgresJobRepository.SweepExpired` | packages/portal/portal/repository/jobs.py:1190-1199 | Expired rows that are not hidden go back or retire and the touched jobs are finished in the order visited. |
| `JobRepository.PostgresJobRepository.PromoteQueued` | packages/portal/portal/repository/jobs.py:1173-1188 | Starts the oldest queued jobs up to the free places, one event each, equal to the specified promotion. |
| `JobRepository.PostgresJobRepository.FinishJobIfDrained` | packages/portal/portal/repository/jobs.py:1201-1253 | Closes a running job without live items as the specification says and leaves any other alone. |
| `JobRepository.PostgresJobRepository.RecordTerminalIntents` | packages/portal/portal/repository/jobs.py:1282-1326 | A terminal event gets one notice per channel, in channel order. |
| `JobRepository.PickAny` | packages/portal/portal/repository/jobs.py:152-247 | An executable general query: per-source, per-job and outer limits yield a legal nested pick, which `QueueColumns.ClaimTakesOldest` reads as the oldest jobs first. |
| `JobRepository.PickKin` | packages/portal/portal/repository/jobs.py:111-150 | The many-item affinity query yields a legal top m of all kindred rows. |
| `JobRepository.PickOneKin` | packages/portal/portal/repository/jobs.py:67-108 | The one-item affinity query, cut per job first, yields a legal top one of all kindred rows. |
| `JobRepository.TopRows` | packages/portal/portal/repository/jobs.py:200-247 | Taking the first row again and again until the limit gives a legal sorted cut without repetitions. |
| `JobRepository.PicksApart` | packages/portal/portal/repository/jobs.py:947-997 | The two queries of one claim never return the same row. |
| `JobRepository.FirstOfEachJob` | packages/portal/portal/repository/jobs.py:67-108 | Cutting each job's kindred rows to one does not change which row comes first overall. |
| `Documents.DocumentIsCanonical` | packages/core/core/domain/types.py:27-46 | A normalised document normalises to itself, so comparing documents compares what was typed. |
| `Documents.DocumentExactlyWhen` | packages/core/core/domain/types.py:18-46 | A value is a document exactly when it is 11, 8 or 7 digits between blanks; the document are the digits, the 7 with a zero before them. |
| `Planning.PlanSubmission` | packages/portal/portal/domain/planning.py:23-76 | For valid sources every line with an unreadable document, one an earlier line named, or one no source accepts has one exclusion with its ordinal and that reason; every other line has one item for each source that accepts it; there is nothing else, and both lists follow the lines, items of one line the sources. Missing, repeated or disabled sources are the error the source raises. |
| `Planning.LineIsExcludedOrPlanned` | packages/portal/portal/domain/planning.py:23-76 | Every input line gives either one exclusion or one item for each source that accepts its document, never both. |
| `Planning.PlannedPairsDistinct` | packages/portal/portal/domain/planning.py:23-76 | No (document, source) pair is planned twice. |
| `Planning.ReusableForTeam` | packages/portal/portal/repository/entries.py:151-201 | Of the asked pairs exactly those for which the team holds a fresh ok or not-found entry, each with an entry the team holds. |
| `Planning.ReviewMatchesAdmission` | packages/portal/portal/domain/planning.py:79-91 | The items a review offers for reuse are those an admission with the same answers reuses; the rest become pending. |
| `ProxySlots.PostgresProxySlots.Claim` | packages/portal/portal/repository/slots.py:16-32 | Takes the lowest slot that is free or expired and not hidden, for one minute, and no other row changes; without one nothing changes, and an unpooled provider has none. |
| `ProxySlots.PostgresProxySlots.Release` | packages/portal/portal/repository/slots.py:34-41 | Frees the slot exactly when this worker holds it. |
| `ProxySlots.PostgresProxySlots.Renew` | packages/portal/portal/repository/slots.py:43-50 | Extends exactly the named slots this worker still holds, to one lease from now. |
| `Fleet.SlotsAreExclusive` | packages/portal/portal/worker/agent.py:463-482 | In any run where every slot in use is renewed within the lease and a release that raises had no effect, no two lanes of any workers use the same slot, through expired rows, failed releases and changes of key, and also if lanes closed for being idle, which they never do. A lane stops using a slot when its release takes effect, before it is answered. |
| `Fleet.HeldSlotsMeetOnlyWhileFreed` | packages/portal/portal/worker/agent.py:471-482 | In such a run two lanes keep a claim to one pooled slot only while one of them has a release that took effect and has not returned. |
| `Fleet.PooledFetchHoldsSlot` | packages/portal/portal/worker/agent.py:386-425 | In such a run a lane that fetches through the pooled provider holds a slot of it that the table has in its name and unexpired. |
| `Fleet.FetchesUseDifferentSlots` | packages/portal/portal/worker/agent.py:386-425 | In such a run two lanes that fetch through the pooled provider do so with different slots. |
| `Fleet.FetchesThroughItsProvider` | packages/portal/portal/worker/agent.py:397-425 | A lane none of whose releases raised fetches with a slot of the provider that its item's credential asks for. |
| `Fleet.SlotKeptUntilOtherKey` | packages/portal/portal/worker/agent.py:386-425 | In such a run a lane keeps its pooled slot, resting or not and however long, until it gets an item of another key, and the table has the row in its name and unexpired all the while. |
| `Fleet.RunKeepsInv` | packages/portal/portal/worker/agent.py:348-384 | What every lane believes it uses is backed by a live row of the slot table in every state of such a run. |
| `Fleet.HeartbeatKeeps` | packages/portal/portal/worker/agent.py:210-238 | A heartbeat renewing any list of slots, stale or not, keeps that. |
| `Fleet.ClaimKeeps` | packages/portal/portal/worker/agent.py:582-603 | So does a claim reaching the table, because the row it takes is nobody's any more. |
| `Fleet.ReleaseKeeps` | packages/portal/portal/worker/agent.py:605-615 | So does a release reaching the table, because it frees the releasing lane's own row only. |
| `FleetLimits.LateRenewalShares` | packages/portal/portal/repository/slots.py:16-50 | Without a timely renewal two workers do use one slot: a concrete run without any failed release. |
| `FleetLimits.LostReplyShares` | packages/portal/portal/worker/agent.py:463-482 | With a release that took effect but raised they do too: a concrete run in which the clock stands still and a lane that changes sources fetches with the slot it gave up, while another lane takes it. |
| `FleetLimits.AfterIsRun` | packages/portal/portal/worker/agent.py:348-384 | Any list of actions that can happen one after the other is a run of the fleet. |
| `LaneSessions.LaneSession.CloseAndRelease` | packages/portal/portal/worker/agent.py:463-482 | The proxy session of a lane with a provider is closed whatever that raises; then, with nobody in between, the slot goes as the fleet's release steps of that lane say, and the claim is kept exactly when a pooled release raises. |
| `LaneSessions.LaneSession.ClaimSlot` | packages/portal/portal/worker/agent.py:582-603 | Polling is a series of the fleet's claim steps; an unpooled provider gets the lane number from one. |
| `LaneSessions.LaneSession.Adopt` | packages/portal/portal/worker/agent.py:386-425 | Adopting an item is a path of the fleet's steps that ends fetching with a slot held, resting without a credential, or still waiting for a slot. For the key it already has the lane keeps its session and its slot; for another its session is closed and, unless the release raised, its slot is gone first. |
| `Dispatch.WorkerAgent.DispatchOnce` | packages/portal/portal/worker/agent.py:296-334 | For every order of the idle lanes, every answer, and whatever the lane loops do at each await, also when a query raises: the queries are one for each key of the idle lanes, in order of first appearance and for as many items as it has lanes, then one without a key for the lanes left over if there are any, each with its own reply; what they answer is put on lanes that were idle, one item each, in the order answered, an affinity query's answers on lanes of its key, and nothing is dropped exactly when no answer is longer than its query asked for; the total counts what was answered; exactly the lanes left without an item gain one idle poll when the round ends; and at no moment is a lane closing its session. |
| `Dispatch.WorkerAgent.Assign` | packages/portal/portal/worker/agent.py:336-346 | For any number of items no one-place queue overflows: the n-th item is alone on the n-th lane's queue, the lanes left over are returned, and items are dropped exactly when there are more of them than lanes. |
| `Dispatch.NothingDroppedExactlyWhen` | packages/portal/portal/worker/agent.py:341-344 | What a series of queries hands out is all they answered exactly when no answer is longer than its query asked for. |
| `Dispatch.WorkerAgent.Serve` | packages/portal/portal/worker/agent.py:307-332 | One query for as many items as there are lanes and the hand-out of its whole answer, with the lanes running in between, leave every other idle lane idle with its polls unchanged. |
| `Dispatch.WorkerAgent.ServeGroups` | packages/portal/portal/worker/agent.py:310-325 | Each key gets one affinity query for as many items as it has idle lanes, in turn and with its own reply, and every such lane is either served or left for the rest of the round. |
| `Dispatch.WorkerAgent.ServeLeft` | packages/portal/portal/worker/agent.py:326-334 | The lanes without an item after the last query are exactly those counted one poll. |
| `Dispatch.WorkerAgent.GroupByKey` | packages/portal/portal/worker/agent.py:302-305 | Each idle lane is in the group of its key, and the groups come in order of first appearance. |
| `Dispatch.WorkerAgent.Await` | packages/portal/portal/worker/agent.py:354-381 | Lane loops running meanwhile keep the queues sound, never take a lane out of the idle set, never count a poll and never close a session. |
| `LaneLoops.LanesAreSafe` | packages/portal/portal/worker/agent.py:354-384 | Any interleaving of lane loop steps keeps the queues sound: an idle lane waits with an empty queue, a lane that waits and is not idle has one item, the others none. |
| `LaneLoops.QueuesStayPut` | packages/portal/portal/worker/agent.py:366-371 | Over any interleaving what a lane takes followed by what is on its queue is what was on its queue: items are neither moved, lost nor taken by another lane. |
| `LaneLoops.NoLaneEverCloses` | packages/portal/portal/worker/agent.py:358-364 | Over every series of rounds and lane steps from new lanes no lane ever closes its session for having been idle: a lane that compares its polls has just been assigned an item, which set them to zero. |
| `LaneLoops.SessionKeptUntilAdoption` | packages/portal/portal/worker/agent.py:358-364 | So a lane keeps its key and its session until it has adopted another item. |
| `LaneLoops.AdoptionFollowsItem` | packages/portal/portal/worker/agent.py:366-425 | Whatever series of rounds and lane steps, a lane that adopts the item it works on, which the dispatcher had put on its queue, keeps its session for that item's key from then on and counts its polls from zero. |
| `CredentialCache.CredentialCache.Reveal` | packages/portal/portal/worker/agent.py:427-461 | Whatever is answered was revealed less than one lifetime before and comes from the cache exactly when an unexpired entry is there, whatever other lanes do with the cache while the server answers; the answer is cached afterwards. |
| `CredentialCache.CredentialCache.Lookup` | packages/portal/portal/worker/agent.py:430-440 | A hit becomes the last used entry; an expired entry goes; the others keep their order. |
| `CredentialCache.CredentialCache.Remember` | packages/portal/portal/worker/agent.py:454-459 | An answer keeps the place of an entry another lane stored meanwhile, or comes last; at most 32 distinct entries remain, the least recently used going first; it expires five minutes after it was in. |
| `Breaker.ObjectMatchesRowExactlyWhen` | packages/core/core/pipeline/breaker.py:77-131 | The object and the UPDATE compute the same state for every outcome sequence on one clock, exactly when the state they start from does not count trips without a deadline. |
| `Breaker.RunAgrees` | packages/portal/portal/repository/breakers.py:26-44 | From any other start they agree after every sequence, although only the UPDATE resets the level unconditionally. |
| `Breaker.StreakCounts` | packages/core/core/pipeline/breaker.py:95-122 | After n failures since the last success the state counts n modulo the threshold and n div threshold trips, and the last trip set the deadline. |
| `Breaker.CooldownInRange` | packages/core/core/pipeline/breaker.py:105-108 | Every cooldown lies between the base and the maximum. |
| `Breaker.CooldownGrows` | packages/core/core/pipeline/breaker.py:105-108 | A later trip never has a shorter cooldown. |
| `Breaker.CooldownDoubles` | packages/core/core/pipeline/breaker.py:105-108 | The first cooldown is the base, and each one is twice the last, up to the maximum. |
| `Breaker.DefaultCooldowns` | packages/core/core/pipeline/breaker.py:20-23 | With the default tuning they are 5, 10, 20, 40, 80 and 160 seconds, and 300 from then on. |
| `Breaker.DeadlinesAdvance` | packages/core/core/pipeline/breaker.py:95-122 | Inside a streak a later trip never sets an earlier deadline. |
| `Breaker.RestartIsUnnoticed` | packages/core/core/pipeline/breaker.py:39-63 | A process that restores the persisted state, at any later time and on any process clock, is open and closed when the old one would have been and persists the same states from then on. |
| `Breaker.AlikeOpen` | packages/core/core/pipeline/breaker.py:74-75 | An object is open exactly until its persisted deadline. |
| `Breaker.CircuitBreaker.constructor` | packages/core/core/pipeline/breaker.py:39-63 | Restores count, level and deadline; a deadline in the past becomes the present. |
| `Breaker.CircuitBreaker.RecordSuccess` | packages/core/core/pipeline/breaker.py:77-93 | Does what the specified transition does and persists the state it leaves. |
| `Breaker.CircuitBreaker.RecordFailure` | packages/core/core/pipeline/breaker.py:95-122 | Does what the specified transition does and persists the state it leaves. |
| `Breaker.PostgresCircuitBreakers.RecordOutcome` | packages/portal/portal/repository/breakers.py:18-66 | Inserts a missing row closed and moves exactly that row by the specified transition. |
| `Fetch.FetchOne` | packages/core/core/pipeline/fetch.py:37-228 | The first of the first four attempts that has a session and finds rows, or an empty answer the site allows, or that there is no such document, is the last and decides: ok with those rows, or not found. When none does, the result is failed at the fourth, under the code of what raised there and without a session. Attempts are numbered from one; the breaker hears one failure for each but the last, and of the last whether it completed; a failure counts as contact exactly when the breaker is closed then; the cooldown never shrinks, and the bans recorded are those of its attempts. |
| `Fetch.TraceIsDetermined` | packages/core/core/pipeline/fetch.py:49-228 | Those promises leave no choice: the first attempt that completes ends the trace, or the fourth does. |
| `Fetch.LookUp` | packages/core/core/pipeline/fetch.py:58-72 | Without a session it ends in what raised while one was opened; with one, in the rows found, a missing document, or what the lookup raised; an empty answer counts only for a source that allows it. |
| `Fetch.Attempt` | packages/core/core/pipeline/fetch.py:49-213 | One round records exactly one outcome on the breaker, opens at most one session, gives it up whenever it failed, and starts a cooldown exactly when it ended in a ban and closing did not raise. |
| `Fetch.WorkerState.EnsureSession` | packages/core/core/pipeline/session.py:66-86 | Keeps a session, or opens one after waiting out the cooldown, so after every earlier ban; an opening that fails leaves none and is released unless its client could not be built or fails to close. |
| `Fetch.WorkerState.AfterSuccess` | packages/core/core/pipeline/session.py:89-102 | A session is given up exactly when it has served its budget. |
| `Fetch.WorkerState.RotateSession` | packages/core/core/pipeline/session.py:105-112 | A failure always gives the session up; its cooldown is added only when closing did not raise, and never shortens one already running. |
| `Fetch.WorkerState.CloseSession` | packages/core/core/pipeline/session.py:115-121 | The session is gone even when closing raises; it stays unreleased exactly when its client fails to close. |
| `Fetch.RunWorker` | packages/cli/cli/pipeline/worker.py:21-63 | Over a worker's life the sessions opened are those released plus those whose client could not be built or failed to close, and none serves more than the budget; after every attempt that ended in a ban and closed without raising, no session starts before the cooldown is over; there is one result per document taken, in order, and the totals add up. |
| `Outcomes.OutcomeStore.RecordSuccess` | packages/cli/cli/store/outcomes.py:68-84 | Always ends as ok, and keeps the attempts counted so far. |
| `Outcomes.OutcomeStore.RecordFailure` | packages/cli/cli/store/outcomes.py:86-103 | Leaves an ok or not-found row alone; otherwise adds the attempt number, or nothing when the breaker was open. |
| `Outcomes.OutcomeStore.RecordNotFound` | packages/cli/cli/store/outcomes.py:105-122 | Leaves an ok row alone and otherwise ends as not found. |
| `Outcomes.OutcomeStore.Record` | packages/cli/cli/pipeline/worker.py:51-60 | A result is routed to the upsert of its status. |
| `Outcomes.OutcomeStore.RecordSnapshot` | packages/cli/cli/store/outcomes.py:447-471 | Copies a row; a second row for a pair is refused and changes nothing. |
| `Outcomes.OutcomeStore.DonePairs` | packages/cli/cli/store/outcomes.py:346-356 | Exactly the pairs that are ok, not found or failed twelve counted attempts. |
| `Outcomes.RowIsFold` | packages/cli/cli/store/outcomes.py:66-122 | The row of a pair depends only on the records of that pair, in their order. |
| `Outcomes.InterleavingsAgree` | packages/cli/cli/store/outcomes.py:66-122 | So every interleaving of lanes leaves the same table. |
| `Outcomes.RowSays` | packages/cli/cli/store/outcomes.py:66-122 | Without replaying its records, a row shows the last success if there ever was one, else the last not-found answer, else the last failure, and the attempts of the failures before either. |
| `Outcomes.RecordImproves` | packages/cli/cli/store/outcomes.py:66-122 | One record never lowers a status, never takes attempts away, never undoes a done pair, and only success changes an ok row. |
| `Outcomes.TableImproves` | packages/cli/cli/store/outcomes.py:66-122 | Over any sequence of records statuses never fall and the done set only grows. |
| `Outcomes.CountsPartition` | packages/cli/cli/store/outcomes.py:358-397 | The four counts of a source add up to its rows, and its retryable rows are exactly those not done. |
| `Resume.ReadDocs` | packages/cli/cli/store/plan.py:25-58 | The documents of the valid rows in order, deduplicated or not; rows read are the sum of valid, ignored and duplicate ones, and without deduplication nothing is a duplicate. |
| `Resume.DocsOf` | packages/cli/cli/store/plan.py:25-58 | Holds exactly the documents the rows name, each once when deduplicated. |
| `Resume.PlanPending` | packages/cli/cli/store/plan.py:61-73 | Exactly the accepted documents whose pair is not done, without new repetitions. |
| `Resume.DocsKeepOrder` | packages/cli/cli/store/plan.py:25-58 | Documents come in the order of their rows: rows added at the end only add documents at the end. |
| `Resume.PendingKeepsOrder` | packages/cli/cli/store/plan.py:61-73 | Pending documents keep the order of the input. |
| `Resume.StartLanes` | packages/cli/cli/pipeline/run.py:140-194 | Lanes are numbered from one, no two lanes of a provider share a slot across all sources, and every provider serves every source that has work. |
| `RunHistory.EachDocumentOnce` | packages/cli/cli/pipeline/run.py:143-194 | However the lanes interleave, a queued document is recorded at most once, and exactly once when the queues are drained; the table is the starting one fed the results in that order. |
| `RunHistory.DrainIsDedupedRun` | packages/cli/cli/pipeline/run.py:39-60 | Planning from the durable state without duplicates and draining give a run whose results are for distinct pairs not done before. |
| `RunHistory.ThreeCountedFailures` | packages/cli/cli/store/outcomes.py:246-264 | Over any number of deduplicated runs, interrupted or not, a pair has at most three counted failures and its row four attempts for each: none, 4, 8 or 12. |
| `RunHistory.RunsImprove` | packages/cli/cli/store/outcomes.py:27 | From run to run statuses never fall and the done set only grows. |
| `UndedupedRuns.CapHoldsExactlyWhen` | packages/cli/cli/store/plan.py:47-50 | The cap of twelve holds in every run over the documents, drained or interrupted, exactly when the attempts so far leave room for four more each time the pair's document was read. |
| `UndedupedRuns.AttemptsPerOccurrence` | packages/cli/cli/store/plan.py:61-73 | No run adds more than four attempts to a row for each time its document was read. |
| `UndedupedRuns.FailingRun` | packages/cli/cli/pipeline/run.py:143-194 | A drained run that adds exactly that many. |
| `UndedupedRuns.EightAndTwiceIsSixteen` | packages/cli/cli/store/plan.py:47-50 | After two deduplicated runs that failed, a run over an input that names the document twice takes the row from 8 to 16 attempts. |
| `RunHistory.ResultsRespectCapExactlyWhen` | packages/cli/cli/store/outcomes.py:246-264 | Whatever m results are recorded of a pair respect the cap exactly when there is room for four attempts each. |
| `Merge.ExpectedPairs` | packages/cli/cli/fleet.py:166-190 | Yields the pairs that some shard's input names for a source that accepts them, with every input there and unchanged; or the complaint about a shard that is missing, changed or shares a document with an earlier one. |
| `Merge.ExpectedExactlyWhen` | packages/cli/cli/fleet.py:166-190 | The pairs exist exactly for readable shards that share none, and are then all pairs of all shards. |
| `Merge.ReadAllOutcomes` | packages/cli/cli/fleet.py:193-205 | Yields the union of disjoint state tables, or names a missing database or a pair two of them hold. |
| `Merge.Merge` | packages/cli/cli/fleet.py:135-163 | Succeeds exactly when the pairs and outcomes can be gathered, every expected pair has an outcome, all outcomes are done (none is a failure below twelve attempts), and neither destination exists; it then holds the union of the shards' tables. Otherwise it names the first objection, in the order the checks are made, with its count. |
| `Merge.NoComplaint` | packages/cli/cli/fleet.py:193-205 | Tables that can be gathered give no complaint, so success and failure of a merge exclude each other. |
| `Merge.GatheredIsUnique` | packages/cli/cli/fleet.py:193-205 | There is one union to gather. |
| `Merge.MergeIsOneStore` | packages/cli/cli/fleet.py:135-163 | The merged table is what one store makes of the records of all shards in any interleaving. |
| `Merge.MergedIsDone` | packages/cli/cli/fleet.py:135-163 | A merged database leaves nothing pending for any shard's input. |
| `Merge.RetiredMergesExactlyWhen` | packages/cli/cli/fleet.py:142-148 | A manifest whose one document failed merges exactly when it is retired, at twelve attempts. |
| `Merge.StatusAddsUp` | packages/cli/cli/fleet.py:101-132 | What `status` reports adds up: the pairs without an outcome, those done, those to retry and those retired. |
| `Merge.MergeIsExpectedExactlyWhen` | packages/cli/cli/fleet.py:101-163 | The merged pairs are the expected ones exactly when every shard holds only expected pairs, which is when `status` does not complain. |
| `Merge.StrayOutcomeMerges` | packages/cli/cli/fleet.py:135-163 | A manifest whose one shard holds an outcome it does not expect merges, and `status` rejects it. |
| `Ephemeral.EphemeralStore.Put` | packages/portal/portal/ephemeral.py:37-54 | Stores exactly when nobody holds the key live. |
| `Ephemeral.EphemeralStore.Overwrite` | packages/portal/portal/ephemeral.py:56-72 | Overwrites and extends exactly a live key. |
| `Ephemeral.EphemeralStore.Get` | packages/portal/portal/ephemeral.py:74-85 | Answers the value of a live key only. |
| `Ephemeral.EphemeralStore.Spend` | packages/portal/portal/ephemeral.py:87-99 | Answers and removes a live key, and nothing else. |
| `Ephemeral.EphemeralStore.CountUp` | packages/portal/portal/ephemeral.py:101-128 | Counts within the window in force without moving its deadline, or opens one; counting something else than a counter changes nothing; no other key changes. |
| `Ephemeral.EphemeralStore.Reclaim` | packages/portal/portal/ephemeral.py:133-139 | Leaves exactly the live rows and answers how many it deleted. |
| `Ephemeral.StepMatches` | packages/portal/portal/ephemeral.py:37-139 | Each operation answers and acts as on a map of live keys alone. |
| `Ephemeral.RunMatches` | packages/portal/portal/ephemeral.py:37-139 | So does every timed sequence of operations, sweeps left out. |
| `Ephemeral.SweepsAreUnobservable` | packages/portal/portal/ephemeral.py:133-139 | Sweeps inserted anywhere change no answer of any other operation. |
| `Ephemeral.ConsumedExactlyWhen` | packages/portal/portal/application/sessions.py:157-161 | A consume gets the token exactly when it comes before the deadline and nothing spent the token before. |
| `Ephemeral.ConsumedOnce` | packages/portal/portal/application/sessions.py:150-171 | After one consume every later consume and peek finds nothing. |
| `Throttle.MutationThrottle.Admit` | packages/portal/portal/application/throttle.py:63-70 | Counts the request on its own key, in windows of a minute, and admits it exactly while the count is at most thirty. |
| `Throttle.LoginThrottle.Allows` | packages/portal/portal/application/throttle.py:39-46 | Allows exactly when neither the account nor the source has five failures in force, and raises only for a key that holds no counter. |
| `Throttle.LoginThrottle.RecordFailure` | packages/portal/portal/application/throttle.py:48-50 | Counts one failure for the account and one for the source, each in its own window of five minutes. |
| `Throttle.LoginThrottle.Clear` | packages/portal/portal/application/throttle.py:52-54 | Forgets both counters and no other key. |
| `Throttle.RowIsWindow` | packages/portal/portal/ephemeral.py:101-128 | A counter's row says how many events its window counts and when it ends, and is live exactly until then. |
| `Throttle.WindowCounts` | packages/portal/portal/ephemeral.py:101-128 | A window counts every event since the one that opened it; none came after its deadline and none cleared it. |
| `Throttle.LockedExactlyWhen` | packages/portal/portal/application/throttle.py:22-54 | A login is locked exactly while the failure that opened the window is less than a window old with the limit of failures since: later failures never move the deadline. |
| `Throttle.WindowsApart` | packages/portal/portal/ephemeral.py:101-128 | Windows open at least one window apart, and counts rise within each. |
| `Throttle.SlidingWindowBound` | packages/portal/portal/application/throttle.py:57-70 | Any half-open interval of one window length contains at most twice the limit of admitted requests, wherever it starts. |
| `Throttle.MutationsBounded` | packages/portal/portal/application/throttle.py:57-70 | An actor gets at most sixty changes of one kind admitted within any minute. |
| `Sessions.BrowserSessions.Load` | packages/portal/portal/application/sessions.py:73-101 | Undisturbed, succeeds exactly for a session live when extended, at most seven days old and with an active user, and then only extends it by twelve hours; otherwise a live session goes and one that was not live stays as it was. |
| `Sessions.BrowserSessions.MarkStepUpVerified` | packages/portal/portal/application/sessions.py:119-136 | Undisturbed, restamps exactly a live session and changes nothing else of it. |
| `Sessions.QuietLoadIsLoad` | packages/portal/portal/application/sessions.py:73-101 | The separate steps of a load, with nothing in between, do what the undisturbed load does and answer what it answers. |
| `Sessions.QuietMarkIsMark` | packages/portal/portal/application/sessions.py:119-136 | So do those of a mark. |
| `Sessions.BrowserSessions.Mint` | packages/portal/portal/application/sessions.py:48-71 | Stores the record under its new key with the idle deadline. |
| `Sessions.BrowserSessions.Destroy` | packages/portal/portal/application/sessions.py:115-117 | Removes the session and no other. |
| `Sessions.OneTimeTokens.Consume` | packages/portal/portal/application/sessions.py:157-161 | Takes the token of that purpose, and does nothing without one. |
| `Sessions.EndedSessionsStayEnded` | packages/portal/portal/application/sessions.py:73-136 | With loads and marks split into their steps, in every interleaving with destroys and the clock, a session that ended is never live again. |
| `Sessions.DestroyedStaysDestroyed` | packages/portal/portal/application/sessions.py:115-117 | A minted session that is destroyed is not live at any later moment. |
| `Sessions.LoadsAreHonest` | packages/portal/portal/application/sessions.py:73-101 | Every load that ever succeeded read its session within its lifetime after it was minted and a stamp some mint or mark of it set; the same holds of what is stored. |
| `Sessions.CreatedNeverChanges` | packages/portal/portal/application/sessions.py:57-67 | The creation time of a session is the same in every state that stores it. |
| `Sessions.StampKeptExactlyWhen` | packages/portal/portal/application/sessions.py:119-136 | After a mark wrote, the session keeps the new stamp exactly when no load that had read it before extends it afterwards. |
| `Sessions.LoadLosesStamp` | packages/portal/portal/application/sessions.py:90-93 | A load and a mark that overlap: the mark writes first and the load brings the older stamp back. |
| `Sessions.OverlapHappens` | packages/portal/portal/application/sessions.py:73-136 | Any live session of a quiet server can get into that overlap. |
| `Rewrap.FromLines` | packages/portal/portal/credentials/masterkey.py:58-86 | Succeeds with every line's key and the first line active, or names the first line that is malformed or repeats a version; a file is empty only when all lines are silent. |
| `Rewrap.ParsesExactlyWhen` | packages/portal/portal/credentials/masterkey.py:132-144 | A line gives a version and a key exactly when it is two words between blanks, a version of plain characters and a readable key. |
| `Rewrap.SilentExactlyWhen` | packages/portal/portal/credentials/masterkey.py:64-68 | A line is passed over exactly when it is blank or its first other character is a hash. |
| `Rewrap.PortalSecrets.RewrapCredentials` | packages/portal/portal/admin/rewrap.py:39-61 | Moves the selected rows, the enabled ones sealed under another line, one at a time as the specified loop does and answers how many; the first that cannot be unwrapped ends it there, with the reason. |
| `Rewrap.PortalSecrets.RewrapMfaSecrets` | packages/portal/portal/admin/rewrap.py:64-91 | The same for the enabled MFA secrets. |
| `Rewrap.PrefixesOpenExactlyWhen` | packages/portal/portal/admin/rewrap.py:64-91 | After every prefix of the loop each enabled secret opens under the full keyring, exactly when no selected row is enrolled anew between the query and its own update. |
| `Rewrap.ReenrolledSecretIsLost` | packages/portal/portal/admin/rewrap.py:76-89 | One selected row, enrolled anew before its update: the run completes and the secret does not open any more. |
| `Rewrap.CompleteRunRetiresOldKeys` | packages/portal/portal/admin/rewrap.py:22-36 | After an undisturbed run every enabled secret is sealed under the active line and opens under it alone, and a second run moves nothing. |
| `Rewrap.OnlySelectedMove` | packages/portal/portal/admin/rewrap.py:39-61 | Undisturbed, every prefix changes only rows already visited, and of them only how their data key is wrapped. |
| `Rewrap.NothingIsLost` | packages/portal/portal/credentials/masterkey.py:107-122 | Whatever the table, a secret that opened before opens at every prefix, also when a missing key ends the run. |
| `Rewrap.CompletesExactlyWhen` | packages/portal/portal/admin/rewrap.py:94-101 | An undisturbed run completes exactly when every selected row can be unwrapped. |
## Left out

- Interleavings of the statements of two open transactions, isolation levels, locks other than the rows a claim does not see, and triggers.
- Time stamps that are only recorded (`created_at`, `finished_at` and the like), the provider column and the error text of a state database row, team membership, audit and search logs, labels, invitations: easy members only.
- HTTP, object storage, mail, browser driving, parsing of answers, settings and argument parsing: services and wrappers.
- Documents.Document: digits are the ASCII ones and blanks the ASCII ones; the pattern and `strip` in the source also accept other Unicode digits and blanks.
- Resume.ReadDocs: starts from the cells of the rows; the CSV reader, its quoting and the byte order mark are not part of this model.
- The queue gate's error for a mismatching control row (`packages/portal/portal/repository/jobs.py:1163-1171`): the lock has no effect on one serialised transaction.
- A worker's shutdown: cancelling a lane while its release is pending, and exceptions that end a lane instead of being logged.
- The worker's wake-ups and back-off and the reconnecting listener: they decide when something happens, not what.
- Breaker.Cooldown: real arithmetic; the source computes the power in floating point, which overflows after more than a thousand trips without a success.
- Waiting for an open breaker before an attempt and between successful lookups: only the order of events matters here.
- Fetch.FetchOne: the source's own exceptions while it logs or persists a breaker state, and a not-found answer while a session is opened, which the source does not expect either.
- Ephemeral.EphemeralStore.CountUp: counters are unbounded and stored as numbers; the source keeps them as text and casts to a 64-bit integer.
- Sessions.BrowserSessions.Load: requires that the key holds a session record, which `Sessions.LoadsAreHonest` proves of every run; CSRF comparison and the JSON form of a record are not part of this model.
- Rewrap.FromLines: base64 decoding is a parameter; a line's words are separated by ASCII blanks.
- Merge.Merge: reading databases written before the provider column existed, the manifest's own validation and the CSV exports.
- Fleet.Next: the heartbeat's own database row; a heartbeat here only renews slots, with any list of slots it may have collected.
