/**
 The portal's job tables and the transactions over them, on values.

 One `Tables` value is a committed database state. Rows are never deleted, so a
 table is a sequence and a row's id is its position; `queue_sequence` is drawn
 inside the insert of a serialised transaction, so a job's position also orders
 the queue. Every transaction is one atomic step: interleavings of statements
 inside two open transactions are not modelled, except that a claim may be given
 any set of rows that `SKIP LOCKED` hides from it.
 */
module JobTables {
  import opened Basics

  const MAX_ACTIVE_JOBS: nat := 5
  const MAX_LEASE_ATTEMPTS: nat := 4
  const ITEM_LEASE_SECONDS: int := 300

  datatype JobState = Queued | Running | Cancelling | Completed | Failed | Cancelled

  datatype ItemState = Pending | Running | Published | Excluded | Failed | Cancelled

  datatype Job = Job(
    team: nat,
    credential: nat,
    // The provider column of the credential version, which never changes.
    provider: string,
    state: JobState,
    fence: nat,
    reason: Option<string>)

  datatype Item = Item(
    job: nat,
    team: nat,
    ordinal: nat,
    document: string,
    source: Option<string>,
    state: ItemState,
    reason: Option<string>,
    attempts: nat,
    owner: Option<string>,
    fence: nat,
    expires: Option<int>,
    entry: Option<nat>,
    resultObject: Option<nat>)

  datatype EventKind = StateEvent(state: JobState) | CancellationRequested

  datatype Event = Event(job: nat, kind: EventKind)

  datatype Channel = InApp | Email | KapsoWhatsapp

  const CHANNELS: seq<Channel> := [InApp, Email, KapsoWhatsapp]

  datatype Notice = Notice(event: nat, channel: Channel, job: nat, state: JobState)

  datatype LookupStatus = Ok | NotFound | LookupFailed

  datatype Entry = Entry(
    id: nat,
    status: LookupStatus,
    content: string,
    errorCode: Option<string>,
    confirmedAt: int,
    lastJob: nat)

  datatype AttemptRecord = AttemptRecord(
    fetchAttempt: nat,
    outcome: LookupStatus,
    errorCode: Option<string>,
    elapsedMs: nat)

  datatype LedgerRow = LedgerRow(item: nat, source: string, provider: string, worker: string, lane: nat,
      attempt: AttemptRecord)

  datatype Tables = Tables(
    jobs: seq<Job>,
    items: seq<Item>,
    events: seq<Event>,
    outbox: seq<Notice>,
    entries: map<(string, string), Entry>,
    ledger: seq<LedgerRow>)

  const EMPTY := Tables([], [], [], [], map[], [])

  // ---------------------------------------------------------------- row tests

  predicate Terminal(s: JobState) {
    s.Completed? || s.Failed? || s.Cancelled?
  }

  predicate Active(job: Job) {
    job.state.Running? || job.state.Cancelling?
  }

  predicate Live(item: Item) {
    item.state.Pending? || item.state.Running?
  }

  predicate HasLive(items: seq<Item>, j: nat) {
    exists i :: 0 <= i < |items| && items[i].job == j && Live(items[i])
  }

  predicate HasPublished(items: seq<Item>, j: nat) {
    exists i :: 0 <= i < |items| && items[i].job == j && items[i].state.Published?
  }

  function ActiveCount(jobs: seq<Job>): nat {
    if |jobs| == 0 then 0
    else ActiveCount(jobs[..|jobs| - 1]) + if Active(jobs[|jobs| - 1]) then 1 else 0
  }

  /** Position of the oldest queued job at or after `from`, or |jobs|. */
  function FirstQueued(jobs: seq<Job>, from: nat := 0): (q: nat)
    requires from <= |jobs|
    ensures from <= q <= |jobs|
    ensures q < |jobs| ==> jobs[q].state.Queued?
    ensures forall j :: from <= j < q ==> !jobs[j].state.Queued?
    decreases |jobs| - from
  {
    if from == |jobs| || jobs[from].state.Queued? then from else FirstQueued(jobs, from + 1)
  }

  // ------------------------------------------------- events and notifications

  function WithEvent(t: Tables, j: nat, kind: EventKind): Tables {
    t.(events := t.events + [Event(j, kind)])
  }

  function NoticesFor(event: nat, j: nat, state: JobState): seq<Notice> {
    [Notice(event, InApp, j, state), Notice(event, Email, j, state), Notice(event, KapsoWhatsapp, j, state)]
  }

  function TerminalIntents(t: Tables, j: nat, state: JobState): Tables {
    WithEvent(t, j, StateEvent(state)).(outbox := t.outbox + NoticesFor(|t.events|, j, state))
  }

  // ---------------------------------------------------------------- promotion

  function StartJob(t: Tables, q: nat): Tables
    requires q < |t.jobs|
  {
    WithEvent(t.(jobs := t.jobs[q := t.jobs[q].(state := JobState.Running)]), q, StateEvent(JobState.Running))
  }

  /** Sets the oldest `slots` queued jobs running, one event each. */
  function Promote(t: Tables, slots: nat): (r: Tables)
    ensures |r.jobs| == |t.jobs| && r.items == t.items
    decreases slots
  {
    var q := FirstQueued(t.jobs);
    if slots == 0 || q == |t.jobs| then t else Promote(StartJob(t, q), slots - 1)
  }

  function PromoteLocked(t: Tables): (r: Tables)
    ensures |r.jobs| == |t.jobs| && r.items == t.items
  {
    var active := ActiveCount(t.jobs);
    if active >= MAX_ACTIVE_JOBS then t else Promote(t, MAX_ACTIVE_JOBS - active)
  }

  // ---------------------------------------------------------------- finishing

  /** The row of a job that has run out of live items. */
  function Drained(t: Tables, j: nat): Job
    requires j < |t.jobs|
  {
    if HasPublished(t.items, j) then t.jobs[j].(state := JobState.Completed)
    else t.jobs[j].(state := JobState.Failed, reason := Some("no_results"))
  }

  /** The job ends, its intents are recorded and the gate is refilled. */
  function EndJob(t: Tables, j: nat, row: Job): (r: Tables)
    requires j < |t.jobs|
    ensures |r.jobs| == |t.jobs| && r.items == t.items
  {
    PromoteLocked(TerminalIntents(t.(jobs := t.jobs[j := row]), j, row.state))
  }

  function FinishIfDrained(t: Tables, j: nat): (r: Tables)
    requires j < |t.jobs|
    ensures |r.jobs| == |t.jobs| && r.items == t.items
  {
    if t.jobs[j].state.Running? && !HasLive(t.items, j) then EndJob(t, j, Drained(t, j)) else t
  }

  /** Finishing a list of jobs, in the order the transaction visits them. */
  function FinishAll(t: Tables, order: seq<nat>): (r: Tables)
    requires forall k :: 0 <= k < |order| ==> order[k] < |t.jobs|
    ensures |r.jobs| == |t.jobs| && r.items == t.items
    decreases |order|
  {
    if order == [] then t else FinishAll(FinishIfDrained(t, order[0]), order[1..])
  }

  // ------------------------------------------------------------------- sweeping

  predicate Expired(t: Tables, i: nat, now: int) {
    && i < |t.items|
    && t.items[i].state.Running?
    && t.items[i].expires.Some?
    && t.items[i].expires.value < now
    && t.items[i].job < |t.jobs|
    && t.jobs[t.items[i].job].state.Running?
  }

  /** Running items of running jobs whose lease has passed, minus hidden rows. */
  function ExpiredItems(t: Tables, now: int, locked: set<nat>): set<nat> {
    set i | 0 <= i < |t.items| && i !in locked && Expired(t, i, now)
  }

  function SweptRow(item: Item): Item {
    if item.attempts >= MAX_LEASE_ATTEMPTS then
      item.(state := ItemState.Failed, reason := Some("lease_expired"), owner := None, expires := None)
    else
      item.(state := ItemState.Pending, owner := None, expires := None)
  }

  function SweptItems(items: seq<Item>, ids: set<nat>): (r: seq<Item>)
    ensures |r| == |items|
    ensures forall i :: 0 <= i < |items| ==> r[i] == if i in ids then SweptRow(items[i]) else items[i]
  {
    seq(|items|, i requires 0 <= i < |items| => if i in ids then SweptRow(items[i]) else items[i])
  }

  function JobsOf(items: seq<Item>, ids: set<nat>): set<nat> {
    set i | 0 <= i < |items| && i in ids :: items[i].job
  }

  /** One sweep that visits the touched jobs in `order`. */
  ghost predicate SweepMakes(t: Tables, now: int, locked: set<nat>, order: seq<nat>, r: Tables) {
    var ids := ExpiredItems(t, now, locked);
    && Enumerates(order, JobsOf(t.items, ids))
    && (forall k :: 0 <= k < |order| ==> order[k] < |t.jobs|)
    && r == FinishAll(t.(items := SweptItems(t.items, ids)), order)
  }

  // ------------------------------------------------------------------- claiming

  function ClaimedRow(jobs: seq<Job>, item: Item, worker: string, now: int): Item
    requires item.job < |jobs|
  {
    item.(state := ItemState.Running, owner := Some(worker), fence := jobs[item.job].fence,
          expires := Some(now + ITEM_LEASE_SECONDS), attempts := item.attempts + 1)
  }

  predicate RowsInRange(t: Tables) {
    forall i :: 0 <= i < |t.items| ==> t.items[i].job < |t.jobs|
  }

  function Claimed(t: Tables, ids: set<nat>, worker: string, now: int): (r: Tables)
    requires RowsInRange(t)
    ensures |r.items| == |t.items| && r == t.(items := r.items)
    ensures forall i :: 0 <= i < |t.items| ==>
      r.items[i] == if i in ids then ClaimedRow(t.jobs, t.items[i], worker, now) else t.items[i]
  {
    t.(items := seq(|t.items|, i requires 0 <= i < |t.items| =>
      if i in ids then ClaimedRow(t.jobs, t.items[i], worker, now) else t.items[i]))
  }

  // ----------------------------------------------------------------- publishing

  datatype Publication = Publication(
    item: nat, worker: string, fence: nat,
    document: string, source: string, provider: string,
    status: LookupStatus, content: string, errorCode: Option<string>,
    resultObject: nat, lane: nat, attempts: seq<AttemptRecord>)

  /** The row the entry upsert leaves; an existing entry keeps its id. */
  function UpsertedEntry(t: Tables, p: Publication, now: int): Entry
    requires p.item < |t.items|
  {
    var pair := (p.document, p.source);
    var id := if pair in t.entries then t.entries[pair].id else |t.entries|;
    Entry(id, p.status, p.content, p.errorCode, now, t.items[p.item].job)
  }

  function LedgerRows(p: Publication): seq<LedgerRow> {
    seq(|p.attempts|, k requires 0 <= k < |p.attempts| =>
      LedgerRow(p.item, p.source, p.provider, p.worker, p.lane, p.attempts[k]))
  }

  /** The observations a publish records whether or not its fence holds. */
  function Observed(t: Tables, p: Publication, now: int): Tables
    requires p.item < |t.items|
  {
    t.(entries := t.entries[(p.document, p.source) := UpsertedEntry(t, p, now)], ledger := t.ledger + LedgerRows(p))
  }

  /** The fenced update's WHERE clause. */
  predicate FenceHolds(t: Tables, p: Publication) {
    && p.item < |t.items|
    && var item := t.items[p.item];
    && item.job < |t.jobs|
    && item.state.Running?
    && item.owner == Some(p.worker)
    && item.fence == p.fence
    && t.jobs[item.job].state.Running?
    && t.jobs[item.job].fence == p.fence
  }

  function PublishedRow(item: Item, entry: nat, resultObject: nat): Item {
    item.(state := ItemState.Published, entry := Some(entry), resultObject := Some(resultObject),
          owner := None, expires := None)
  }

  function PublishTx(t: Tables, p: Publication, now: int): Tables
    requires p.item < |t.items|
  {
    var seen := Observed(t, p, now);
    if FenceHolds(t, p) then
      var row := PublishedRow(t.items[p.item], UpsertedEntry(t, p, now).id, p.resultObject);
      FinishIfDrained(seen.(items := t.items[p.item := row]), t.items[p.item].job)
    else seen
  }

  // ------------------------------------------------------------------ cancelling

  function CancelledItems(items: seq<Item>, j: nat): (r: seq<Item>)
    ensures |r| == |items|
    ensures forall i :: 0 <= i < |items| ==>
      r[i] == if items[i].job == j && Live(items[i]) then items[i].(state := ItemState.Cancelled) else items[i]
  {
    seq(|items|, i requires 0 <= i < |items| =>
      if items[i].job == j && Live(items[i]) then items[i].(state := ItemState.Cancelled) else items[i])
  }

  /** Whether a cancel request finds a job it may end. */
  predicate Cancellable(t: Tables, j: nat, team: nat) {
    j < |t.jobs| && t.jobs[j].team == team && !Terminal(t.jobs[j].state)
  }

  function CancelTx(t: Tables, j: nat, team: nat): Tables {
    if !Cancellable(t, j, team) then t
    else
      var asked :=
        if t.jobs[j].state.Running? then
          WithEvent(t.(jobs := t.jobs[j := t.jobs[j].(state := JobState.Cancelling, fence := t.jobs[j].fence + 1)]),
            j, CancellationRequested)
        else t;
      EndJob(asked.(items := CancelledItems(t.items, j)), j, asked.jobs[j].(state := JobState.Cancelled))
  }

  // ------------------------------------------------------------------- admitting

  datatype PlannedItem = PlannedItem(ordinal: nat, document: string, source: string)

  datatype ExcludedInput = ExcludedInput(ordinal: nat, value: string, reason: string)

  datatype SubmissionPlan = SubmissionPlan(items: seq<PlannedItem>, exclusions: seq<ExcludedInput>)

  datatype Submission = Submission(team: nat, credential: nat, provider: string, plan: SubmissionPlan)

  type Reusable = map<(string, string), nat>

  function PairOf(p: PlannedItem): (string, string) { (p.document, p.source) }

  function ToFetch(items: seq<PlannedItem>, reusable: Reusable): seq<PlannedItem> {
    if items == [] then []
    else (if PairOf(items[0]) in reusable then [] else [items[0]]) + ToFetch(items[1..], reusable)
  }

  function Reused(items: seq<PlannedItem>, reusable: Reusable): (r: seq<PlannedItem>)
    ensures forall k :: 0 <= k < |r| ==> PairOf(r[k]) in reusable
  {
    if items == [] then []
    else (if PairOf(items[0]) in reusable then [items[0]] else []) + Reused(items[1..], reusable)
  }

  function PendingRow(j: nat, team: nat, p: PlannedItem): Item {
    Item(j, team, p.ordinal, p.document, Some(p.source), ItemState.Pending, None, 0, None, 0, None, None, None)
  }

  function ReusedRow(j: nat, team: nat, p: PlannedItem, entry: nat): Item {
    Item(j, team, p.ordinal, p.document, Some(p.source), ItemState.Published, None, 0, None, 0, None, Some(entry), None)
  }

  function ExcludedRow(j: nat, team: nat, x: ExcludedInput): Item {
    Item(j, team, x.ordinal, x.value, None, ItemState.Excluded, Some(x.reason), 0, None, 0, None, None, None)
  }

  function PendingRows(j: nat, team: nat, fetch: seq<PlannedItem>): (r: seq<Item>)
    ensures |r| == |fetch| && forall k :: 0 <= k < |r| ==> r[k] == PendingRow(j, team, fetch[k])
  {
    seq(|fetch|, k requires 0 <= k < |fetch| => PendingRow(j, team, fetch[k]))
  }

  function ReusedRows(j: nat, team: nat, reuse: seq<PlannedItem>, reusable: Reusable): (r: seq<Item>)
    requires forall k :: 0 <= k < |reuse| ==> PairOf(reuse[k]) in reusable
    ensures |r| == |reuse|
    ensures forall k :: 0 <= k < |r| ==> r[k] == ReusedRow(j, team, reuse[k], reusable[PairOf(reuse[k])])
  {
    seq(|reuse|, k requires 0 <= k < |reuse| => ReusedRow(j, team, reuse[k], reusable[PairOf(reuse[k])]))
  }

  function ExcludedRows(j: nat, team: nat, exclusions: seq<ExcludedInput>): (r: seq<Item>)
    ensures |r| == |exclusions| && forall k :: 0 <= k < |r| ==> r[k] == ExcludedRow(j, team, exclusions[k])
  {
    seq(|exclusions|, k requires 0 <= k < |exclusions| => ExcludedRow(j, team, exclusions[k]))
  }

  /** The rows an admission inserts, in insertion order. */
  function NewItems(j: nat, s: Submission, reusable: Reusable): seq<Item> {
    PendingRows(j, s.team, ToFetch(s.plan.items, reusable))
    + ReusedRows(j, s.team, Reused(s.plan.items, reusable), reusable)
    + ExcludedRows(j, s.team, s.plan.exclusions)
  }

  function AdmittedState(t: Tables, s: Submission, reusable: Reusable): JobState {
    if ToFetch(s.plan.items, reusable) == [] then JobState.Completed
    else if ActiveCount(t.jobs) < MAX_ACTIVE_JOBS then JobState.Running
    else JobState.Queued
  }

  function AdmittedJob(t: Tables, s: Submission, reusable: Reusable): Job {
    var reason := if s.plan.items == [] then Some("all_records_excluded") else None;
    Job(s.team, s.credential, s.provider, AdmittedState(t, s, reusable), 0, reason)
  }

  /** The tables with the new job and its items, before its event is recorded. */
  function Inserted(t: Tables, row: Job, more: seq<Item>): Tables {
    t.(jobs := t.jobs + [row], items := t.items + more)
  }

  function AdmitTx(t: Tables, s: Submission, reusable: Reusable): Tables {
    var j := |t.jobs|;
    var row := AdmittedJob(t, s, reusable);
    var inserted := Inserted(t, row, NewItems(j, s, reusable));
    if row.state.Completed? then TerminalIntents(inserted, j, row.state)
    else WithEvent(inserted, j, StateEvent(row.state))
  }
}
