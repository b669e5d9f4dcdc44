/** The shared GitOps registry: compare-and-swap on the whole payload, with the audit event in the
    same transaction, and the system of workers that use it. */
module GitOpsShared {
  import opened Outcomes
  import opened JsonValues
  import opened AuditChain
  import opened AuditTrails
  import opened Histories
  import opened Documents
  import opened Orders
  import opened GitOps

  datatype ChangeRow = ChangeRow(tenant: Option<string>, payload: string, order: int)

  /** gitops_change_sets and the last_created_order of gitops_state. */
  datatype GitTable = GitTable(rows: map<string, ChangeRow>, lastOrder: int)

  datatype CommitError = AlreadyRegistered | NotFound | ModifiedByAnother | AuditFailed(error: AuditError)

  function TenantOf(cs: ChangeSet): Option<string> {
    TextOf(cs.metadata, "tenant_id")
  }

  /** The tenant column names the owner in the metadata, when there is one that is text. */
  ghost predicate OwnedBy(tenant: Option<string>, cs: ChangeSet) {
    forall t :: tenant == Some(t) <==> Find(cs.metadata, "tenant_id") == Some(DStr(t))
  }

  /** The owner decides the column: there is one tenant value for a change set. */
  lemma TenantIsOwner(tenant: Option<string>, cs: ChangeSet)
    ensures OwnedBy(tenant, cs) <==> tenant == TenantOf(cs)
  {
    if OwnedBy(tenant, cs) {
      if tenant.Some? { assert tenant == Some(tenant.value); }
      if TenantOf(cs).Some? { assert Find(cs.metadata, "tenant_id") == Some(DStr(TenantOf(cs).value)); }
    }
  }

  /** The row that stores a change set. */
  function RowOf(codec: PayloadCodec, cs: ChangeSet, order: int): ChangeRow {
    ChangeRow(TenantOf(cs), codec.encode(cs), order)
  }

  /** The stored text and tenant are the ones this change set would be stored with. */
  predicate IsRowOf(codec: PayloadCodec, row: ChangeRow, cs: ChangeSet) {
    row.payload == codec.encode(cs) && row.tenant == TenantOf(cs)
  }

  /** `appended` is the outcome of the audit append in the same transaction. */
  function Insert(codec: PayloadCodec, t: GitTable, cs: ChangeSet, appended: Result<Chain, AuditError>)
    : Result<(Chain, GitTable), CommitError>
  {
    if cs.changeId in t.rows then Err(AlreadyRegistered)
    else if appended.Err? then Err(AuditFailed(appended.error))
    else
      Ok((appended.value, GitTable(t.rows[cs.changeId := RowOf(codec, cs, t.lastOrder + 1)], t.lastOrder + 1)))
  }

  /** `previous` is the change set read before; its text must still be the stored one. */
  function Update(codec: PayloadCodec, t: GitTable, cs: ChangeSet, previous: ChangeSet,
                  appended: Result<Chain, AuditError>)
    : Result<(Chain, GitTable), CommitError>
  {
    var id := cs.changeId;
    if id !in t.rows then Err(NotFound)
    else if !IsRowOf(codec, t.rows[id], previous) then Err(ModifiedByAnother)
    else if appended.Err? then Err(AuditFailed(appended.error))
    else Ok((appended.value, t.(rows := t.rows[id := RowOf(codec, cs, t.rows[id].order)])))
  }

  class SharedGitOpsRegistry {
    const codec: PayloadCodec
    var rows: map<string, ChangeRow>
    var lastOrder: int

    constructor (codec: PayloadCodec)
      ensures this.codec == codec && Contents() == GitTable(map[], 0)
    {
      this.codec := codec;
      rows, lastOrder := map[], 0;
    }

    function Contents(): GitTable
      reads this
    {
      GitTable(rows, lastOrder)
    }

    /** _insert_shared_locked; a failing audit append rolls the insert and the allocator back. */
    method InsertLocked(cs: ChangeSet, trail: PersistentAuditTrail, e: AuditEvent) returns (r: Result<(), CommitError>)
      modifies this, trail
      ensures var spec := Insert(codec, old(Contents()), cs, TryAppend(trail.env, old(trail.Contents()), e));
              && (spec.Ok? ==> r.Ok? && (trail.Contents(), Contents()) == spec.value)
              && (spec.Err? ==>
                    && r == Err(spec.error)
                    && trail.Contents() == old(trail.Contents()) && Contents() == old(Contents()))
      ensures r == Err(AlreadyRegistered) <==> cs.changeId in old(rows)
      ensures r.Ok? ==>
                && cs.changeId in rows && rows == old(rows)[cs.changeId := rows[cs.changeId]]
                && rows[cs.changeId].payload == codec.encode(cs) && OwnedBy(rows[cs.changeId].tenant, cs)
                && rows[cs.changeId].order == lastOrder == old(lastOrder) + 1
                && |trail.rows| == |old(trail.rows)| + 1 && Says(trail.rows[|old(trail.rows)|], e)
    {
      TenantIsOwner(TenantOf(cs), cs);
      if cs.changeId in rows { return Err(AlreadyRegistered); }
      var saved := (rows, lastOrder);
      var next := lastOrder + 1;
      rows := rows[cs.changeId := ChangeRow(TenantOf(cs), codec.encode(cs), next)];
      lastOrder := next;
      var recorded := trail.Record(e);
      if recorded.Err? {
        rows, lastOrder := saved.0, saved.1;
        return Err(AuditFailed(recorded.error));
      }
      r := Ok(());
    }

    /** _update_shared_locked. */
    method UpdateLocked(cs: ChangeSet, previous: ChangeSet, trail: PersistentAuditTrail, e: AuditEvent)
      returns (r: Result<(), CommitError>)
      modifies this, trail
      ensures var spec := Update(codec, old(Contents()), cs, previous, TryAppend(trail.env, old(trail.Contents()), e));
              && (spec.Ok? ==> r.Ok? && (trail.Contents(), Contents()) == spec.value)
              && (spec.Err? ==>
                    && r == Err(spec.error)
                    && trail.Contents() == old(trail.Contents()) && Contents() == old(Contents()))
      ensures r == Err(NotFound) <==> cs.changeId !in old(rows)
      ensures r == Err(ModifiedByAnother) <==>
                && cs.changeId in old(rows)
                && !(old(rows)[cs.changeId].payload == codec.encode(previous)
                     && OwnedBy(old(rows)[cs.changeId].tenant, previous))
      ensures r.Ok? ==>
                && cs.changeId in rows && rows == old(rows)[cs.changeId := rows[cs.changeId]]
                && rows[cs.changeId].payload == codec.encode(cs) && OwnedBy(rows[cs.changeId].tenant, cs)
                && rows[cs.changeId].order == old(rows)[cs.changeId].order && lastOrder == old(lastOrder)
                && |trail.rows| == |old(trail.rows)| + 1 && Says(trail.rows[|old(trail.rows)|], e)
    {
      TenantIsOwner(TenantOf(cs), cs);
      if cs.changeId in rows { TenantIsOwner(rows[cs.changeId].tenant, previous); }
      var id := cs.changeId;
      if id !in rows { return Err(NotFound); }
      var row := rows[id];
      if row.payload != codec.encode(previous) || row.tenant != TenantOf(previous) { return Err(ModifiedByAnother); }
      rows := rows[id := ChangeRow(TenantOf(cs), codec.encode(cs), row.order)];
      var recorded := trail.Record(e);
      if recorded.Err? {
        rows := rows[id := row];
        assert rows == old(rows);
        return Err(AuditFailed(recorded.error));
      }
      r := Ok(());
    }
  }

  // ---- Audit events ------------------------------------------------------------------

  /** The request's timestamp, principal and event details. */
  datatype Request = Request(stamp: string, actor: Option<string>, details: map<string, Json>)

  function EventName(before: ChangeSet, op: Op, after: ChangeSet): string {
    match op
    case Approve(_) => "gitops_change_approved"
    case Reject(_, _) => "gitops_change_rejected"
    case Apply(dryRun) =>
      if ApplyOutcome(before, dryRun).1.success then "gitops_change_applied" else "gitops_apply_failed"
    case Verify(_) => if after.status.Verified? then "gitops_change_verified" else "gitops_verification_failed"
  }

  function ChangeEvent(cs: ChangeSet, name: string, oldText: string, newText: string, r: Request): AuditEvent {
    AuditEvent(cs.sourceActionId, name, "gitops_change_set", cs.changeId, oldText, newText, name, r.stamp, r.details,
               r.actor)
  }

  function RegisteredEvent(cs: ChangeSet, r: Request): AuditEvent {
    ChangeEvent(cs, "gitops_change_registered", "none", StatusText(cs.status), r)
  }

  function PerformedEvent(before: ChangeSet, op: Op, after: ChangeSet, r: Request): AuditEvent {
    ChangeEvent(after, EventName(before, op, after), StatusText(before.status), StatusText(after.status), r)
  }

  /** The events name change set, transition, principal and request. */
  lemma ChangeEventsSay(before: ChangeSet, op: Op, after: ChangeSet, r: Request)
    ensures var e := PerformedEvent(before, op, after, r);
            && e.actionId == after.sourceActionId
            && e.resourceType == "gitops_change_set" && e.resourceId == after.changeId
            && e.oldStatus == StatusText(before.status) && e.newStatus == StatusText(after.status)
            && e.actionType == e.event && e.actorId == r.actor && e.timestamp == r.stamp && e.details == r.details
    ensures var e := RegisteredEvent(after, r);
            && e.actionId == after.sourceActionId
            && e.resourceType == "gitops_change_set" && e.resourceId == after.changeId
            && e.oldStatus == "none" && e.newStatus == StatusText(after.status)
            && e.actionType == e.event == "gitops_change_registered"
            && e.actorId == r.actor && e.timestamp == r.stamp && e.details == r.details
  {
  }

  /** Every event is named after the operation and how it ended. */
  lemma EventNamesTellTheOutcome(before: ChangeSet, op: Op)
    requires Perform(before, op).Some?
    ensures var after := Perform(before, op).value;
            var (name, status) := (EventName(before, op, after), StatusText(after.status));
            && (op.Approve? ==> name == "gitops_change_approved" && status == "approved")
            && (op.Reject? ==> name == "gitops_change_rejected" && status == "rejected")
            && (op.Apply? && op.dryRun && Applicable(before.changes) && MayApply(before) ==>
                  name == "gitops_change_applied" && status == "applied")
            && (op.Apply? && !(op.dryRun && Applicable(before.changes) && MayApply(before)) ==>
                  name == "gitops_apply_failed")
            && (op.Verify? && (op.observed.None? || Shows(op.observed.value, before.changes)) ==>
                  name == "gitops_change_verified" && status == "verified")
            && (op.Verify? && op.observed.Some? && !Shows(op.observed.value, before.changes) ==>
                  name == "gitops_verification_failed" && status == "failed")
  {
    OperationsDoTheirWork(before, op);
    if op.Apply? { ApplyDoes(before, op.dryRun); }
  }

  predicate Concerned(name: string) {
    "gitops_" <= name
  }

  function Concerns(id: string): Entry -> bool {
    (e: Entry) => Concerned(e.name) && e.resourceId == id
  }

  function ChangeHistory(rows: seq<AuditRow>, id: string): seq<Entry> {
    History(rows, Concerns(id))
  }

  // ---- Runs of one change set ----------------------------------------------------------

  /** A committed version: the operation that made it (none for the first) and its result. */
  datatype Commit = Commit(op: Option<Op>, result: ChangeSet)

  /** The committed versions are a run of the engine from a constructed change set. */
  ghost predicate IsRun(commits: seq<Commit>, id: string) {
    && commits != [] && commits[0].op.None? && Constructed(commits[0].result) && commits[0].result.changeId == id
    && (forall i :: 0 < i < |commits| ==>
          commits[i].op.Some? && Perform(commits[i - 1].result, commits[i].op.value) == Some(commits[i].result))
  }

  function Current(commits: seq<Commit>): ChangeSet
    requires commits != []
  {
    commits[|commits| - 1].result
  }

  predicate Follows(e: Entry, before: ChangeSet, commit: Commit) {
    && commit.op.Some?
    && e.name == EventName(before, commit.op.value, commit.result)
    && e.oldStatus == StatusText(before.status) && e.newStatus == StatusText(commit.result.status)
  }

  predicate Registers(e: Entry, first: ChangeSet) {
    e.name == "gitops_change_registered" && e.oldStatus == "none" && e.newStatus == StatusText(first.status)
  }

  /** The entry for version i > 0. */
  function EntryFor(h: seq<Entry>, commits: seq<Commit>, i: nat): Entry
    requires |h| <= |commits| <= |h| + 1 && 0 < i < |commits|
  {
    h[i - (|commits| - |h|)]
  }

  /** The entries a history gained report the committed versions one by one: all but the first, and
      that one too if it was registered meanwhile. */
  ghost predicate Reports(h: seq<Entry>, commits: seq<Commit>, registered: bool) {
    && commits != [] && |commits| == |h| + (if registered then 0 else 1)
    && (registered ==> Registers(h[0], commits[0].result))
    && (forall i {:trigger EntryFor(h, commits, i)} :: 0 < i < |commits| ==>
          Follows(EntryFor(h, commits, i), commits[i - 1].result, commits[i]))
  }

  /** Every version of a run is constructed and of one identity, it is sound if the first one is, and
      pending approval is only ever entered from pending approval. */
  lemma {:induction false} RunFacts(commits: seq<Commit>, id: string, i: nat)
    requires IsRun(commits, id) && i < |commits|
    ensures Constructed(commits[i].result) && commits[i].result.changeId == id
    ensures Sound(commits[0].result) ==> Sound(commits[i].result)
    ensures i > 0 && commits[i].result.status.PendingApproval? ==> commits[i - 1].result.status.PendingApproval?
  {
    if i > 0 {
      RunFacts(commits, id, i - 1);
      PerformKeeps(commits[i - 1].result, commits[i].op.value);
    }
  }

  lemma {:induction false} NeverPendingAgain(commits: seq<Commit>, id: string, i: nat, j: nat)
    requires IsRun(commits, id) && i <= j < |commits| && !commits[i].result.status.PendingApproval?
    ensures !commits[j].result.status.PendingApproval?
    decreases j
  {
    if i < j {
      NeverPendingAgain(commits, id, i, j - 1);
      RunFacts(commits, id, j);
    }
  }

  predicate IsDecision(name: string) {
    name == "gitops_change_approved" || name == "gitops_change_rejected"
  }

  ghost predicate AtMostOneDecision(h: seq<Entry>) {
    forall i, j :: 0 <= i < j < |h| ==> !(IsDecision(h[i].name) && IsDecision(h[j].name))
  }

  lemma DecisionLeavesPending(commits: seq<Commit>, id: string, e: Entry, i: nat)
    requires IsRun(commits, id) && 0 < i < |commits| && Follows(e, commits[i - 1].result, commits[i])
    requires IsDecision(e.name)
    ensures commits[i - 1].result.status.PendingApproval? && !commits[i].result.status.PendingApproval?
  {
    var op := commits[i].op.value;
    RunFacts(commits, id, i - 1);
    PerformKeeps(commits[i - 1].result, op);
    assert op.Approve? || op.Reject?;
  }

  lemma NotTwoDecisions(commits: seq<Commit>, id: string, d: Entry, e: Entry, i: nat, j: nat)
    requires IsRun(commits, id) && 0 < i < j < |commits| && IsDecision(d.name)
    requires Follows(d, commits[i - 1].result, commits[i]) && Follows(e, commits[j - 1].result, commits[j])
    ensures !IsDecision(e.name)
  {
    if IsDecision(e.name) {
      DecisionLeavesPending(commits, id, d, i);
      DecisionLeavesPending(commits, id, e, j);
      NeverPendingAgain(commits, id, i, j - 1);
      assert false;
    }
  }

  lemma DecisionEntry(commits: seq<Commit>, h: seq<Entry>, registered: bool, i: nat)
    requires Reports(h, commits, registered) && i < |h| && IsDecision(h[i].name)
    ensures var k := i + |commits| - |h|;
            0 < k < |commits| && Follows(h[i], commits[k - 1].result, commits[k])
  {
    assert registered ==> i > 0;
    assert EntryFor(h, commits, i + |commits| - |h|) == h[i];
  }

  lemma OneDecision(commits: seq<Commit>, id: string, h: seq<Entry>, registered: bool)
    requires IsRun(commits, id) && Reports(h, commits, registered)
    ensures AtMostOneDecision(h)
  {
    forall i, j | 0 <= i < j < |h| && IsDecision(h[i].name) ensures !IsDecision(h[j].name) {
      if IsDecision(h[j].name) {
        DecisionEntry(commits, h, registered, i);
        DecisionEntry(commits, h, registered, j);
        NotTwoDecisions(commits, id, h[i], h[j], i + |commits| - |h|, j + |commits| - |h|);
      }
    }
  }

  lemma EntryStatuses(commits: seq<Commit>, h: seq<Entry>, registered: bool, i: nat)
    requires Reports(h, commits, registered) && i < |h| && i + |commits| - |h| > 0
    ensures var k := i + |commits| - |h|;
            && h[i].oldStatus == StatusText(commits[k - 1].result.status)
            && h[i].newStatus == StatusText(commits[k].result.status)
  {
    assert EntryFor(h, commits, i + |commits| - |h|) == h[i];
  }

  function FirstStatus(commits: seq<Commit>, registered: bool): string
    requires commits != []
  {
    if registered then "none" else StatusText(commits[0].result.status)
  }

  /** Entry i starts where the one before it ended. */
  lemma EntriesLink(commits: seq<Commit>, h: seq<Entry>, registered: bool, i: nat)
    requires Reports(h, commits, registered) && 0 < i < |h|
    ensures h[i].oldStatus == h[i - 1].newStatus
  {
    EntryStatuses(commits, h, registered, i);
    if i - 1 + |commits| - |h| > 0 { EntryStatuses(commits, h, registered, i - 1); }
  }

  lemma EntryEnds(commits: seq<Commit>, h: seq<Entry>, registered: bool)
    requires Reports(h, commits, registered) && h != []
    ensures h[0].oldStatus == FirstStatus(commits, registered)
    ensures h[|h| - 1].newStatus == StatusText(Current(commits).status)
  {
    if !registered { EntryStatuses(commits, h, registered, 0); }
    if |commits| > 1 { EntryStatuses(commits, h, registered, |h| - 1); }
  }

  /** The entries of a run are a path to its current status, and at most one approval or rejection ever
      commits. */
  lemma ReportsArePaths(commits: seq<Commit>, id: string, h: seq<Entry>, registered: bool)
    requires IsRun(commits, id) && Reports(h, commits, registered)
    ensures PathBetween(h, FirstStatus(commits, registered), StatusText(Current(commits).status))
    ensures AtMostOneDecision(h)
  {
    forall i | 0 < i < |h| ensures h[i].oldStatus == h[i - 1].newStatus { EntriesLink(commits, h, registered, i); }
    if h != [] { EntryEnds(commits, h, registered); }
    OneDecision(commits, id, h, registered);
  }

  lemma RunExtended(commits: seq<Commit>, id: string, commit: Commit)
    requires IsRun(commits, id) && commit.op.Some? && Perform(Current(commits), commit.op.value) == Some(commit.result)
    ensures IsRun(commits + [commit], id)
  {
    var more := commits + [commit];
    forall i | 0 < i < |more|
      ensures more[i].op.Some? && Perform(more[i - 1].result, more[i].op.value) == Some(more[i].result)
    {
      if i < |commits| { assert more[i] == commits[i] && more[i - 1] == commits[i - 1]; }
    }
  }

  lemma ReportsExtended(commits: seq<Commit>, h: seq<Entry>, registered: bool, commit: Commit, e: Entry)
    requires Reports(h, commits, registered) && Follows(e, Current(commits), commit)
    ensures Reports(h + [e], commits + [commit], registered)
  {
    var (more, g) := (commits + [commit], h + [e]);
    forall i | 0 < i < |more| ensures Follows(EntryFor(g, more, i), more[i - 1].result, more[i]) {
      if i < |commits| {
        assert EntryFor(g, more, i) == EntryFor(h, commits, i);
        assert more[i] == commits[i] && more[i - 1] == commits[i - 1];
      } else {
        assert EntryFor(g, more, i) == e;
      }
    }
  }

  // ---- The system ------------------------------------------------------------------------

  /** The database, the change set each worker has loaded and not yet acted on, and (for the proof)
      the committed versions of every change set. */
  datatype GitSystem = GitSystem(
    chain: Chain, table: GitTable, loaded: map<nat, ChangeSet>, commits: map<string, seq<Commit>>)

  datatype GitStep =
    | Register(cs: ChangeSet, r: Request)
    | Load(worker: nat, id: string)
    | Act(worker: nat, op: Op, r: Request)
    | Unrelated(e: AuditEvent)

  predicate Enabled(codec: PayloadCodec, s: GitSystem, step: GitStep) {
    match step
    case Register(cs, _) => Constructed(cs)
    case Load(_, id) => id in s.table.rows && codec.decode(s.table.rows[id].payload, s.table.rows[id].tenant).Some?
    case Act(worker, _, _) => worker in s.loaded
    case Unrelated(e) => !Concerned(e.event)
  }

  function Versions(commits: map<string, seq<Commit>>, id: string): seq<Commit> {
    if id in commits then commits[id] else []
  }

  function RegisterStep(codec: PayloadCodec, s: GitSystem, cs: ChangeSet,
                        appended: Result<Chain, AuditError>): GitSystem
  {
    match Insert(codec, s.table, cs, appended)
    case Ok((chain, table)) =>
      s.(chain := chain, table := table, commits := s.commits[cs.changeId := [Commit(None, cs)]])
    case Err(_) => s
  }

  function CommitStep(codec: PayloadCodec, s: GitSystem, before: ChangeSet, op: Op, after: ChangeSet,
                      appended: Result<Chain, AuditError>): GitSystem
  {
    match Update(codec, s.table, after, before, appended)
    case Ok((chain, table)) =>
      s.(chain := chain, table := table,
         commits := s.commits[after.changeId := Versions(s.commits, after.changeId) + [Commit(Some(op), after)]])
    case Err(_) => s
  }

  function Next(env: Env, codec: PayloadCodec, s: GitSystem, step: GitStep): GitSystem
    requires Enabled(codec, s, step)
  {
    match step
    case Register(cs, r) => RegisterStep(codec, s, cs, TryAppend(env, s.chain, RegisteredEvent(cs, r)))
    case Load(worker, id) =>
      s.(loaded := s.loaded[worker := codec.decode(s.table.rows[id].payload, s.table.rows[id].tenant).value])
    case Act(worker, op, r) =>
      var before := s.loaded[worker];
      var t := s.(loaded := s.loaded - {worker});
      (match Perform(before, op)
       case None => t
       case Some(after) =>
         CommitStep(codec, t, before, op, after, TryAppend(env, s.chain, PerformedEvent(before, op, after, r))))
    case Unrelated(e) =>
      var r := TryAppend(env, s.chain, e);
      if r.Ok? then s.(chain := r.value) else s
  }

  function Exec(env: Env, codec: PayloadCodec, s: GitSystem, steps: seq<GitStep>): GitSystem
    decreases |steps|
  {
    if steps == [] then s
    else Exec(env, codec, if Enabled(codec, s, steps[0]) then Next(env, codec, s, steps[0]) else s, steps[1..])
  }

  function OrdersOf(t: GitTable): map<string, int> {
    map id | id in t.rows :: t.rows[id].order
  }

  /** The change set a row stands for: it decodes, under the row's id, and its text is the row's. */
  function Opening(codec: PayloadCodec, row: ChangeRow, id: string): Option<ChangeSet> {
    match codec.decode(row.payload, row.tenant)
    case None => None
    case Some(cs) => if IsRowOf(codec, row, cs) && cs.changeId == id then Some(cs) else None
  }

  function Openings(codec: PayloadCodec, t: GitTable): map<string, seq<Commit>> {
    map id | id in t.rows && Opening(codec, t.rows[id], id).Some? ::
      [Commit(None, Opening(codec, t.rows[id], id).value)]
  }

  /** A good log and table with whatever they hold, and no worker at work yet. */
  ghost predicate Start(codec: PayloadCodec, s: GitSystem) {
    && Faithful(codec) && HeadOk(s.chain) && OrdersOk(OrdersOf(s.table), s.table.lastOrder)
    && s.loaded == map[] && s.commits == Openings(codec, s.table)
  }

  /** What a row, its committed versions and the entries its history gained have to do with each other. */
  ghost predicate Tracked(codec: PayloadCodec, row: ChangeRow, commits: seq<Commit>, h: seq<Entry>, id: string,
                          registered: bool)
  {
    IsRun(commits, id) && IsRowOf(codec, row, Current(commits)) && Reports(h, commits, registered)
  }

  /** The entries of this change set since `o`. */
  function Added(o: Chain, c: Chain, id: string): seq<Entry> {
    var (h0, h) := (ChangeHistory(o.rows, id), ChangeHistory(c.rows, id));
    if |h0| <= |h| then h[|h0|..] else []
  }

  /** The table has rows for all ids it had; the first versions stay, every version has a row, and none is
      of a row that had no versions from the start. */
  predicate KeysKept(o: GitSystem, s: GitSystem) {
    && o.table.rows.Keys <= s.table.rows.Keys
    && o.commits.Keys <= s.commits.Keys <= s.table.rows.Keys
    && (forall id :: id in o.commits ==> o.commits[id] <= s.commits[id])
    && (forall id :: id in s.commits && id in o.table.rows ==> id in o.commits)
  }

  ghost predicate AllTracked(codec: PayloadCodec, o: GitSystem, rows: map<string, ChangeRow>,
                             commits: map<string, seq<Commit>>, chain: Chain)
    requires commits.Keys <= rows.Keys
  {
    forall id :: id in commits ==>
      Tracked(codec, rows[id], commits[id], Added(o.chain, chain, id), id, id !in o.table.rows)
  }

  /** An id without versions has the row, if any, and the history that it had. */
  ghost predicate RestKept(o: GitSystem, rows: map<string, ChangeRow>, commits: map<string, seq<Commit>>,
                           chain: Chain)
  {
    forall id :: id !in commits ==>
      && ChangeHistory(chain.rows, id) == ChangeHistory(o.chain.rows, id)
      && (id in rows ==> id in o.table.rows && rows[id] == o.table.rows[id])
  }

  /** What holds of a state reached from `o`. */
  ghost predicate Inv(env: Env, codec: PayloadCodec, o: GitSystem, s: GitSystem) {
    && HeadOk(s.chain) && GrownFrom(env, o.chain.rows, s.chain.rows)
    && OrdersOk(OrdersOf(s.table), s.table.lastOrder)
    && KeysKept(o, s)
    && (forall id :: ChangeHistory(o.chain.rows, id) <= ChangeHistory(s.chain.rows, id))
    && AllTracked(codec, o, s.table.rows, s.commits, s.chain) && RestKept(o, s.table.rows, s.commits, s.chain)
    && (forall w :: w in s.loaded ==> Constructed(s.loaded[w]))
  }

  /** The log after one more event: good, grown by a row that recomputes, and longer by the entry in just
      its history. */
  ghost predicate Extends(env: Env, before: Chain, after: Chain, entry: Entry) {
    && HeadOk(after) && GrownFrom(env, before.rows, after.rows)
    && forall id :: ChangeHistory(after.rows, id)
         == ChangeHistory(before.rows, id) + if Concerned(entry.name) && entry.resourceId == id then [entry] else []
  }

  lemma AppendExtends(env: Env, chain: Chain, e: AuditEvent)
    requires HeadOk(chain)
    ensures TryAppend(env, chain, e).Ok? ==> Extends(env, chain, TryAppend(env, chain, e).value, EventEntry(e))
  {
    AppendKeepsHead(env, chain, e);
    if TryAppend(env, chain, e).Err? { return; }
    var after := TryAppend(env, chain, e).value;
    forall id ensures ChangeHistory(after.rows, id)
              == ChangeHistory(chain.rows, id)
                 + if Concerned(e.event) && e.resourceId == id then [EventEntry(e)] else []
    {
      AppendExtendsHistory(env, chain, e, Concerns(id));
    }
  }

  lemma AddedExtends(env: Env, o: Chain, c: Chain, after: Chain, entry: Entry, id: string)
    requires ChangeHistory(o.rows, id) <= ChangeHistory(c.rows, id) && Extends(env, c, after, entry)
    ensures ChangeHistory(o.rows, id) <= ChangeHistory(after.rows, id)
    ensures Added(o, after, id)
            == Added(o, c, id) + if Concerned(entry.name) && entry.resourceId == id then [entry] else []
  {
    var (h0, h) := (ChangeHistory(o.rows, id), ChangeHistory(c.rows, id));
    assert (h + [entry])[|h0|..] == h[|h0|..] + [entry];
    assert h + [] == h;
  }

  lemma TransactionKeepsKeys(o: GitSystem, s: GitSystem, t: GitSystem, id: string)
    requires KeysKept(o, s) && id in t.table.rows && id in t.commits
    requires t.table.rows == s.table.rows[id := t.table.rows[id]] && t.commits == s.commits[id := t.commits[id]]
    requires id in s.commits ==> s.commits[id] <= t.commits[id]
    requires (id in o.commits ==> id in s.commits) && (id in o.table.rows ==> id in o.commits)
    ensures KeysKept(o, t)
  {
  }

  lemma TransactionExtendsHistories(env: Env, o: Chain, c: Chain, after: Chain, entry: Entry, id: string)
    requires forall k :: ChangeHistory(o.rows, k) <= ChangeHistory(c.rows, k)
    requires Extends(env, c, after, entry) && Concerned(entry.name) && entry.resourceId == id
    ensures forall k :: ChangeHistory(o.rows, k) <= ChangeHistory(after.rows, k)
    ensures forall k :: Added(o, after, k) == if k == id then Added(o, c, k) + [entry] else Added(o, c, k)
    ensures forall k :: k != id ==> ChangeHistory(after.rows, k) == ChangeHistory(c.rows, k)
  {
    forall k
      ensures ChangeHistory(o.rows, k) <= ChangeHistory(after.rows, k)
      ensures Added(o, after, k) == if k == id then Added(o, c, k) + [entry] else Added(o, c, k)
      ensures k != id ==> ChangeHistory(after.rows, k) == ChangeHistory(c.rows, k)
    {
      AddedExtends(env, o, c, after, entry, k);
    }
  }

  lemma TransactionKeepsTracked(codec: PayloadCodec, o: GitSystem, rows: map<string, ChangeRow>,
                                commits: map<string, seq<Commit>>, chain: Chain, after: Chain, id: string,
                                row: ChangeRow, versions: seq<Commit>)
    requires commits.Keys <= rows.Keys && AllTracked(codec, o, rows, commits, chain)
    requires forall k :: k != id ==> Added(o.chain, after, k) == Added(o.chain, chain, k)
    requires Tracked(codec, row, versions, Added(o.chain, after, id), id, id !in o.table.rows)
    ensures AllTracked(codec, o, rows[id := row], commits[id := versions], after)
  {
    forall k | k in commits[id := versions]
      ensures Tracked(codec, rows[id := row][k], commits[id := versions][k], Added(o.chain, after, k), k,
                      k !in o.table.rows)
    {
      if k != id { assert k in commits; }
    }
  }

  lemma TransactionKeepsRest(o: GitSystem, rows: map<string, ChangeRow>, commits: map<string, seq<Commit>>,
                             chain: Chain,
                             after: Chain, id: string, row: ChangeRow, versions: seq<Commit>)
    requires RestKept(o, rows, commits, chain)
    requires forall k :: k != id ==> ChangeHistory(after.rows, k) == ChangeHistory(chain.rows, k)
    ensures RestKept(o, rows[id := row], commits[id := versions], after)
  {
  }

  /** One transaction: an entry of change set `id`, its row, and its versions. */
  lemma TransactionKeepsInv(env: Env, codec: PayloadCodec, o: GitSystem, s: GitSystem, t: GitSystem, entry: Entry,
                            id: string)
    requires Inv(env, codec, o, s) && Extends(env, s.chain, t.chain, entry)
    requires Concerned(entry.name) && entry.resourceId == id && id in t.table.rows && id in t.commits
    requires t.table.rows == s.table.rows[id := t.table.rows[id]] && t.commits == s.commits[id := t.commits[id]]
    requires id in s.commits ==> s.commits[id] <= t.commits[id]
    requires (id in o.commits ==> id in s.commits) && (id in o.table.rows ==> id in o.commits)
    requires OrdersOk(OrdersOf(t.table), t.table.lastOrder) && t.loaded == s.loaded
    requires Tracked(codec, t.table.rows[id], t.commits[id], Added(o.chain, s.chain, id) + [entry], id,
                     id !in o.table.rows)
    ensures Inv(env, codec, o, t)
  {
    TransactionExtendsHistories(env, o.chain, s.chain, t.chain, entry, id);
    GrownChains(env, o.chain.rows, s.chain.rows, t.chain.rows);
    TransactionKeepsKeys(o, s, t, id);
    var (row, versions) := (t.table.rows[id], t.commits[id]);
    TransactionKeepsTracked(codec, o, s.table.rows, s.commits, s.chain, t.chain, id, row, versions);
    TransactionKeepsRest(o, s.table.rows, s.commits, s.chain, t.chain, id, row, versions);
  }

  lemma UnrelatedKeepsInv(env: Env, codec: PayloadCodec, o: GitSystem, s: GitSystem, chain: Chain, entry: Entry)
    requires Inv(env, codec, o, s) && !Concerned(entry.name) && Extends(env, s.chain, chain, entry)
    ensures Inv(env, codec, o, s.(chain := chain))
  {
    forall k
      ensures ChangeHistory(chain.rows, k) == ChangeHistory(s.chain.rows, k)
      ensures Added(o.chain, chain, k) == Added(o.chain, s.chain, k)
    {
    }
    GrownChains(env, o.chain.rows, s.chain.rows, chain.rows);
  }

  lemma LoadedKeepsInv(env: Env, codec: PayloadCodec, o: GitSystem, s: GitSystem, worker: nat, cs: ChangeSet)
    requires Inv(env, codec, o, s) && Constructed(cs)
    ensures Inv(env, codec, o, s.(loaded := s.loaded[worker := cs]))
  {
  }

  lemma ReleasedKeepsInv(env: Env, codec: PayloadCodec, o: GitSystem, s: GitSystem, worker: nat)
    requires Inv(env, codec, o, s)
    ensures Inv(env, codec, o, s.(loaded := s.loaded - {worker}))
  {
  }

  lemma InsertKeepsOrders(t: GitTable, id: string, row: ChangeRow)
    requires OrdersOk(OrdersOf(t), t.lastOrder) && id !in t.rows && row.order == t.lastOrder + 1
    ensures OrdersOk(OrdersOf(GitTable(t.rows[id := row], t.lastOrder + 1)), t.lastOrder + 1)
  {
    assert OrdersOf(GitTable(t.rows[id := row], t.lastOrder + 1)) == OrdersOf(t)[id := t.lastOrder + 1];
    NextOrderIsFree(OrdersOf(t), t.lastOrder, id);
  }

  lemma RegisteredIsTracked(codec: PayloadCodec, cs: ChangeSet, order: int, r: Request)
    requires Constructed(cs)
    ensures var entry := EventEntry(RegisteredEvent(cs, r));
            && Tracked(codec, RowOf(codec, cs, order), [Commit(None, cs)], [entry], cs.changeId, true)
            && Concerned(entry.name) && entry.resourceId == cs.changeId
  {
  }

  lemma RegisteredKeepsInv(env: Env, codec: PayloadCodec, o: GitSystem, s: GitSystem, chain: Chain, id: string,
                           row: ChangeRow,
                           commits: seq<Commit>, entry: Entry)
    requires Inv(env, codec, o, s) && Extends(env, s.chain, chain, entry) && id !in s.table.rows
    requires Concerned(entry.name) && entry.resourceId == id && row.order == s.table.lastOrder + 1
    requires Tracked(codec, row, commits, [entry], id, true)
    ensures Inv(env, codec, o, s.(chain := chain, table := GitTable(s.table.rows[id := row], s.table.lastOrder + 1),
                                    commits := s.commits[id := commits]))
  {
    var table := GitTable(s.table.rows[id := row], s.table.lastOrder + 1);
    InsertKeepsOrders(s.table, id, row);
    assert Added(o.chain, s.chain, id) == [];
    assert Added(o.chain, s.chain, id) + [entry] == [entry];
    TransactionKeepsInv(env, codec, o, s, s.(chain := chain, table := table, commits := s.commits[id := commits]),
                        entry, id);
  }

  lemma RegisterStepForm(codec: PayloadCodec, s: GitSystem, cs: ChangeSet, appended: Result<Chain, AuditError>)
    ensures var row := RowOf(codec, cs, s.table.lastOrder + 1);
            RegisterStep(codec, s, cs, appended)
            == if appended.Err? || cs.changeId in s.table.rows then s
               else s.(chain := appended.value,
                       table := GitTable(s.table.rows[cs.changeId := row], s.table.lastOrder + 1),
                       commits := s.commits[cs.changeId := [Commit(None, cs)]])
  {
  }

  lemma RegisterKeepsInv(env: Env, codec: PayloadCodec, o: GitSystem, s: GitSystem, cs: ChangeSet,
                         appended: Result<Chain, AuditError>, entry: Entry)
    requires Inv(env, codec, o, s) && (appended.Ok? ==> Extends(env, s.chain, appended.value, entry))
    requires Concerned(entry.name) && entry.resourceId == cs.changeId
    requires Tracked(codec, RowOf(codec, cs, s.table.lastOrder + 1), [Commit(None, cs)], [entry], cs.changeId, true)
    ensures Inv(env, codec, o, RegisterStep(codec, s, cs, appended))
  {
    RegisterStepForm(codec, s, cs, appended);
    if appended.Ok? && cs.changeId !in s.table.rows {
      RegisteredKeepsInv(env, codec, o, s, appended.value, cs.changeId, RowOf(codec, cs, s.table.lastOrder + 1),
                         [Commit(None, cs)], entry);
    }
  }

  lemma UpdateKeepsOrders(t: GitTable, id: string, row: ChangeRow)
    requires id in t.rows && row.order == t.rows[id].order
    ensures OrdersOf(t.(rows := t.rows[id := row])) == OrdersOf(t)
  {
  }

  lemma CommittedKeepsInv(env: Env, codec: PayloadCodec, o: GitSystem, s: GitSystem, chain: Chain, id: string,
                          row: ChangeRow,
                          commits: seq<Commit>, entry: Entry)
    requires Inv(env, codec, o, s) && Extends(env, s.chain, chain, entry) && id in s.commits && s.commits[id] <= commits
    requires Concerned(entry.name) && entry.resourceId == id && row.order == s.table.rows[id].order
    requires Tracked(codec, row, commits, Added(o.chain, s.chain, id) + [entry], id, id !in o.table.rows)
    ensures Inv(env, codec, o, s.(chain := chain, table := s.table.(rows := s.table.rows[id := row]),
                                    commits := s.commits[id := commits]))
  {
    var table := s.table.(rows := s.table.rows[id := row]);
    UpdateKeepsOrders(s.table, id, row);
    TransactionKeepsInv(env, codec, o, s, s.(chain := chain, table := table, commits := s.commits[id := commits]),
                        entry, id);
  }

  lemma EventNameIsConcerned(before: ChangeSet, op: Op, after: ChangeSet)
    ensures Concerned(EventName(before, op, after))
  {
  }

  lemma PerformIdentity(cs: ChangeSet, op: Op)
    requires Perform(cs, op).Some?
    ensures Perform(cs, op).value.changeId == cs.changeId
    ensures Concerned(EventName(cs, op, Perform(cs, op).value))
  {
    EventNameIsConcerned(cs, op, Perform(cs, op).value);
  }

  /** A compare-and-swap that succeeds was made against the current version. */
  lemma SwapMeetsCurrent(codec: PayloadCodec, row: ChangeRow, commits: seq<Commit>, h: seq<Entry>, before: ChangeSet,
                         id: string, registered: bool)
    requires Faithful(codec) && Tracked(codec, row, commits, h, id, registered)
    requires Constructed(before) && IsRowOf(codec, row, before)
    ensures before == Current(commits)
  {
    RunFacts(commits, id, |commits| - 1);
    PayloadIsInjective(codec, before, Current(commits));
  }

  lemma RowDecodes(codec: PayloadCodec, row: ChangeRow, cs: ChangeSet)
    requires Faithful(codec) && Constructed(cs) && IsRowOf(codec, row, cs)
    ensures codec.decode(row.payload, row.tenant) == Some(cs)
  {
    assert TenantAgrees(cs.metadata, row.tenant);
    assert codec.decode(codec.encode(cs), row.tenant) == Some(cs);
  }

  /** Against a row that stands for no change set none ever succeeds. */
  lemma SwapNeedsOpening(codec: PayloadCodec, row: ChangeRow, id: string, before: ChangeSet)
    requires Faithful(codec) && Constructed(before) && before.changeId == id && IsRowOf(codec, row, before)
    ensures Opening(codec, row, id) == Some(before)
  {
    RowDecodes(codec, row, before);
  }

  lemma CommittedIsTracked(codec: PayloadCodec, row: ChangeRow, commits: seq<Commit>, h: seq<Entry>, before: ChangeSet,
                           op: Op, after: ChangeSet, r: Request, id: string, registered: bool)
    requires Faithful(codec) && Tracked(codec, row, commits, h, id, registered)
    requires Constructed(before) && IsRowOf(codec, row, before) && Perform(before, op) == Some(after)
    ensures Tracked(codec, RowOf(codec, after, row.order), commits + [Commit(Some(op), after)],
                    h + [EventEntry(PerformedEvent(before, op, after, r))], id, registered)
  {
    SwapMeetsCurrent(codec, row, commits, h, before, id, registered);
    RunExtended(commits, id, Commit(Some(op), after));
    ReportsExtended(commits, h, registered, Commit(Some(op), after), EventEntry(PerformedEvent(before, op, after, r)));
  }

  lemma CommitStepForm(codec: PayloadCodec, s: GitSystem, before: ChangeSet, op: Op, after: ChangeSet,
                       appended: Result<Chain, AuditError>)
    ensures var id := after.changeId;
            CommitStep(codec, s, before, op, after, appended)
            == if id in s.table.rows && IsRowOf(codec, s.table.rows[id], before) && appended.Ok? then
                 s.(chain := appended.value,
                    commits := s.commits[id := Versions(s.commits, id) + [Commit(Some(op), after)]],
                    table := s.table.(rows := s.table.rows[id := RowOf(codec, after, s.table.rows[id].order)]))
               else s
  {
  }

  lemma CommitKeepsInv(env: Env, codec: PayloadCodec, o: GitSystem, s: GitSystem, before: ChangeSet, op: Op,
                       after: ChangeSet, appended: Result<Chain, AuditError>, entry: Entry)
    requires Inv(env, codec, o, s) && (appended.Ok? ==> Extends(env, s.chain, appended.value, entry))
    requires Concerned(entry.name) && entry.resourceId == after.changeId
    requires after.changeId in s.table.rows && IsRowOf(codec, s.table.rows[after.changeId], before) ==>
               && after.changeId in s.commits
               && Tracked(codec, RowOf(codec, after, s.table.rows[after.changeId].order),
                          s.commits[after.changeId] + [Commit(Some(op), after)],
                          Added(o.chain, s.chain, after.changeId) + [entry], after.changeId,
                          after.changeId !in o.table.rows)
    ensures Inv(env, codec, o, CommitStep(codec, s, before, op, after, appended))
  {
    var id := after.changeId;
    CommitStepForm(codec, s, before, op, after, appended);
    if id in s.table.rows && IsRowOf(codec, s.table.rows[id], before) && appended.Ok? {
      CommittedKeepsInv(env, codec, o, s, appended.value, id, RowOf(codec, after, s.table.rows[id].order),
                        s.commits[id] + [Commit(Some(op), after)], entry);
    }
  }

  /** Loading decodes the row to the current committed version. */
  lemma LoadsCurrent(codec: PayloadCodec, row: ChangeRow, commits: seq<Commit>, h: seq<Entry>, id: string,
                     registered: bool)
    requires Faithful(codec) && Tracked(codec, row, commits, h, id, registered)
    ensures codec.decode(row.payload, row.tenant) == Some(Current(commits))
    ensures Constructed(Current(commits)) && Current(commits).changeId == id
    ensures Sound(commits[0].result) ==> Sound(Current(commits))
  {
    RunFacts(commits, id, |commits| - 1);
    RowDecodes(codec, row, Current(commits));
  }

  lemma DecodedRowIsConstructed(codec: PayloadCodec, row: ChangeRow)
    requires Faithful(codec) && codec.decode(row.payload, row.tenant).Some?
    ensures Constructed(codec.decode(row.payload, row.tenant).value)
  {
  }

  lemma LoadKeepsInv(env: Env, codec: PayloadCodec, o: GitSystem, s: GitSystem, step: GitStep)
    requires Faithful(codec) && Inv(env, codec, o, s) && step.Load? && Enabled(codec, s, step)
    ensures Inv(env, codec, o, Next(env, codec, s, step))
  {
    var row := s.table.rows[step.id];
    DecodedRowIsConstructed(codec, row);
    LoadedKeepsInv(env, codec, o, s, step.worker, codec.decode(row.payload, row.tenant).value);
  }

  lemma OpeningsHaveVersions(codec: PayloadCodec, o: GitSystem, s: GitSystem, id: string)
    requires o.commits == Openings(codec, o.table) && KeysKept(o, s)
    requires id in o.table.rows && Opening(codec, o.table.rows[id], id).Some?
    ensures id in s.commits
  {
    assert id in Openings(codec, o.table);
  }

  /** An operation performed on a constructed copy, committed if the copy is still current. */
  lemma PerformedKeepsInv(env: Env, codec: PayloadCodec, o: GitSystem, s: GitSystem, before: ChangeSet, op: Op,
                          after: ChangeSet, r: Request)
    requires Faithful(codec) && Inv(env, codec, o, s) && o.commits == Openings(codec, o.table)
    requires Constructed(before) && Perform(before, op) == Some(after)
    ensures Inv(env, codec, o, CommitStep(codec, s, before, op, after,
                                          TryAppend(env, s.chain, PerformedEvent(before, op, after, r))))
  {
    var (id, e) := (before.changeId, PerformedEvent(before, op, after, r));
    PerformIdentity(before, op);
    AppendExtends(env, s.chain, e);
    if id in s.table.rows && IsRowOf(codec, s.table.rows[id], before) {
      var row := s.table.rows[id];
      SwapNeedsOpening(codec, row, id, before);
      if id !in s.commits { OpeningsHaveVersions(codec, o, s, id); }
      CommittedIsTracked(codec, row, s.commits[id], Added(o.chain, s.chain, id), before, op, after, r, id,
                         id !in o.table.rows);
    }
    CommitKeepsInv(env, codec, o, s, before, op, after, TryAppend(env, s.chain, e), EventEntry(e));
  }

  lemma ActKeepsInv(env: Env, codec: PayloadCodec, o: GitSystem, s: GitSystem, step: GitStep)
    requires Faithful(codec) && Inv(env, codec, o, s) && o.commits == Openings(codec, o.table) && step.Act?
    requires Enabled(codec, s, step)
    ensures Inv(env, codec, o, Next(env, codec, s, step))
  {
    var before := s.loaded[step.worker];
    var released := s.(loaded := s.loaded - {step.worker});
    ReleasedKeepsInv(env, codec, o, s, step.worker);
    match Perform(before, step.op) {
      case None =>
      case Some(after) => PerformedKeepsInv(env, codec, o, released, before, step.op, after, step.r);
    }
  }

  lemma RegisterStepKeepsInv(env: Env, codec: PayloadCodec, o: GitSystem, s: GitSystem, cs: ChangeSet, r: Request)
    requires Inv(env, codec, o, s) && Constructed(cs)
    ensures Inv(env, codec, o, RegisterStep(codec, s, cs, TryAppend(env, s.chain, RegisteredEvent(cs, r))))
  {
    var e := RegisteredEvent(cs, r);
    AppendExtends(env, s.chain, e);
    RegisteredIsTracked(codec, cs, s.table.lastOrder + 1, r);
    RegisterKeepsInv(env, codec, o, s, cs, TryAppend(env, s.chain, e), EventEntry(e));
  }

  lemma StepKeepsInv(env: Env, codec: PayloadCodec, o: GitSystem, s: GitSystem, step: GitStep)
    requires Faithful(codec) && Inv(env, codec, o, s) && o.commits == Openings(codec, o.table)
    requires Enabled(codec, s, step)
    ensures Inv(env, codec, o, Next(env, codec, s, step))
  {
    match step {
      case Register(cs, r) => RegisterStepKeepsInv(env, codec, o, s, cs, r);
      case Load(_, _) => LoadKeepsInv(env, codec, o, s, step);
      case Act(_, _, _) => ActKeepsInv(env, codec, o, s, step);
      case Unrelated(e) =>
        AppendExtends(env, s.chain, e);
        if TryAppend(env, s.chain, e).Ok? {
          UnrelatedKeepsInv(env, codec, o, s, TryAppend(env, s.chain, e).value, EventEntry(e));
        }
    }
  }

  lemma {:induction false} RunKeepsInv(env: Env, codec: PayloadCodec, o: GitSystem, s: GitSystem, steps: seq<GitStep>)
    requires Faithful(codec) && Inv(env, codec, o, s) && o.commits == Openings(codec, o.table)
    ensures Inv(env, codec, o, Exec(env, codec, s, steps))
    decreases |steps|
  {
    if steps != [] {
      if Enabled(codec, s, steps[0]) { StepKeepsInv(env, codec, o, s, steps[0]); }
      RunKeepsInv(env, codec, o, if Enabled(codec, s, steps[0]) then Next(env, codec, s, steps[0]) else s, steps[1..]);
    }
  }

  lemma OpeningIsTracked(codec: PayloadCodec, row: ChangeRow, id: string)
    requires Faithful(codec) && Opening(codec, row, id).Some?
    ensures Tracked(codec, row, [Commit(None, Opening(codec, row, id).value)], [], id, false)
  {
    DecodedRowIsConstructed(codec, row);
  }

  lemma StartIsGood(env: Env, codec: PayloadCodec, s: GitSystem)
    requires Start(codec, s)
    ensures Inv(env, codec, s, s)
  {
    forall id | id in s.commits
      ensures Tracked(codec, s.table.rows[id], s.commits[id], Added(s.chain, s.chain, id), id, id !in s.table.rows)
    {
      OpeningIsTracked(codec, s.table.rows[id], id);
      assert Added(s.chain, s.chain, id) == [];
    }
  }

  /** Version i is what its operation does to the version before: among others, one made by verify is verified
      exactly if the observation shows every desired value. */
  ghost predicate VersionDone(commits: seq<Commit>, i: nat)
    requires 0 < i < |commits|
  {
    && commits[i].op.Some? && Admitted(commits[i - 1].result, commits[i].op.value)
    && DoneTo(commits[i - 1].result, commits[i].op.value, commits[i].result)
  }

  lemma VersionsAreDone(commits: seq<Commit>, id: string)
    requires IsRun(commits, id)
    ensures forall i {:trigger VersionDone(commits, i)} :: 0 < i < |commits| ==> VersionDone(commits, i)
  {
    forall i | 0 < i < |commits| ensures VersionDone(commits, i) {
      OperationsDoTheirWork(commits[i - 1].result, commits[i].op.value);
    }
  }

  /** What holds of a change set with versions in a reachable state. */
  ghost predicate RealRun(codec: PayloadCodec, row: ChangeRow, commits: seq<Commit>, h: seq<Entry>, id: string,
                          registered: bool)
  {
    && IsRun(commits, id) && Reports(h, commits, registered)
    && PathBetween(h, FirstStatus(commits, registered), StatusText(Current(commits).status)) && AtMostOneDecision(h)
    && codec.decode(row.payload, row.tenant) == Some(Current(commits))
    && (Sound(commits[0].result) ==> Sound(Current(commits)))
    && (forall i {:trigger VersionDone(commits, i)} :: 0 < i < |commits| ==> VersionDone(commits, i))
    && OwnedBy(row.tenant, Current(commits))
  }

  lemma TrackedRunIsReal(codec: PayloadCodec, row: ChangeRow, commits: seq<Commit>, h: seq<Entry>, id: string,
                         registered: bool)
    requires Faithful(codec) && Tracked(codec, row, commits, h, id, registered)
    ensures RealRun(codec, row, commits, h, id, registered)
  {
    LoadsCurrent(codec, row, commits, h, id, registered);
    ReportsArePaths(commits, id, h, registered);
    VersionsAreDone(commits, id);
    TenantIsOwner(row.tenant, Current(commits));
  }

  /** From any good database, under every interleaving of workers acting on outdated copies: the versions
      committed for a change id are a run of the engine from its former version (or its registration),
      the entries its history gained report them as a linked path with at most one approval or rejection,
      and the stored payload is the last of them, sound if the first one was. A row that stands for no
      change set keeps its payload and history for good. */
  lemma CommittedHistoriesAreRuns(env: Env, codec: PayloadCodec, s: GitSystem, steps: seq<GitStep>, id: string)
    requires Start(codec, s) && id in Exec(env, codec, s, steps).table.rows
    ensures var t := Exec(env, codec, s, steps);
            && HeadOk(t.chain) && GrownFrom(env, s.chain.rows, t.chain.rows)
            && OrdersOk(OrdersOf(t.table), t.table.lastOrder) && KeysKept(s, t)
            && if id in t.commits then
                 RealRun(codec, t.table.rows[id], t.commits[id], Added(s.chain, t.chain, id), id, id !in s.table.rows)
               else
                 && id in s.table.rows && Opening(codec, s.table.rows[id], id).None?
                 && t.table.rows[id] == s.table.rows[id]
                 && ChangeHistory(t.chain.rows, id) == ChangeHistory(s.chain.rows, id)
  {
    StartIsGood(env, codec, s);
    RunKeepsInv(env, codec, s, s, steps);
    var t := Exec(env, codec, s, steps);
    if id in t.commits {
      var (row, commits, h, registered) :=
        (t.table.rows[id], t.commits[id], Added(s.chain, t.chain, id), id !in s.table.rows);
      assert Tracked(codec, row, commits, h, id, registered);
      TrackedRunIsReal(codec, row, commits, h, id, registered);
    } else if Opening(codec, s.table.rows[id], id).Some? {
      OpeningsHaveVersions(codec, s, t, id);
      assert false;
    }
  }

  /** One worker's load and action with nobody in between. */
  function Alone(env: Env, codec: PayloadCodec, s: GitSystem, worker: nat, id: string, op: Op, r: Request): GitSystem
    requires Enabled(codec, s, Load(worker, id))
  {
    Next(env, codec, Next(env, codec, s, Load(worker, id)), Act(worker, op, r))
  }

  lemma AloneIsOneCommit(env: Env, codec: PayloadCodec, s: GitSystem, worker: nat, id: string, op: Op, r: Request)
    requires Enabled(codec, s, Load(worker, id))
    ensures var before := codec.decode(s.table.rows[id].payload, s.table.rows[id].tenant).value;
            var released := s.(loaded := s.loaded - {worker});
            Alone(env, codec, s, worker, id, op, r)
            == match Perform(before, op)
               case None => released
               case Some(after) =>
                 CommitStep(codec, released, before, op, after,
                            TryAppend(env, s.chain, PerformedEvent(before, op, after, r)))
  {
    var before := codec.decode(s.table.rows[id].payload, s.table.rows[id].tenant).value;
    assert s.loaded[worker := before] - {worker} == s.loaded - {worker};
  }

  /** A swap made against what is stored can fail only in its audit append. */
  lemma CurrentSwapCommits(codec: PayloadCodec, s: GitSystem, before: ChangeSet, op: Op, after: ChangeSet,
                           appended: Result<Chain, AuditError>, id: string)
    requires id in s.table.rows && id in s.commits && IsRowOf(codec, s.table.rows[id], before) && after.changeId == id
    ensures var t := CommitStep(codec, s, before, op, after, appended);
            if appended.Ok? then
              t.commits == s.commits[id := s.commits[id] + [Commit(Some(op), after)]] && t.chain == appended.value
            else t == s
  {
    CommitStepForm(codec, s, before, op, after, appended);
  }

  /** A worker that loads and acts with nobody in between always passes the payload check: its
      operation commits exactly when the engine performs it and its event can be recorded. */
  lemma UncontendedUpdateCommits(env: Env, codec: PayloadCodec, s: GitSystem, steps: seq<GitStep>, worker: nat,
                                 id: string, op: Op, r: Request)
    requires Start(codec, s) && id in Exec(env, codec, s, steps).commits
    ensures var t := Exec(env, codec, s, steps);
            && t.commits[id] != [] && Enabled(codec, t, Load(worker, id))
            && var (before, v) := (Current(t.commits[id]), Alone(env, codec, t, worker, id, op, r));
            && var performed := Perform(before, op);
            if performed.Some? && Recordable(env, PerformedEvent(before, op, performed.value, r)) then
              && Admitted(before, op) && DoneTo(before, op, performed.value)
              && v.commits == t.commits[id := t.commits[id] + [Commit(Some(op), performed.value)]]
              && |v.chain.rows| == |t.chain.rows| + 1
              && Says(v.chain.rows[|t.chain.rows|], PerformedEvent(before, op, performed.value, r))
            else
              && v == t.(loaded := t.loaded - {worker})
              && (Admitted(before, op) ==> performed.Some?)
  {
    StartIsGood(env, codec, s);
    RunKeepsInv(env, codec, s, s, steps);
    var t := Exec(env, codec, s, steps);
    var (commits, h, registered) := (t.commits[id], Added(s.chain, t.chain, id), id !in s.table.rows);
    LoadsCurrent(codec, t.table.rows[id], commits, h, id, registered);
    AloneIsOneCommit(env, codec, t, worker, id, op, r);
    OperationsDoTheirWork(Current(commits), op);
    match Perform(Current(commits), op) {
      case None =>
      case Some(after) =>
        var e := PerformedEvent(Current(commits), op, after, r);
        AppendKeepsHead(env, t.chain, e);
        if TryAppend(env, t.chain, e).Ok? { AppendReadsBack(env, t.chain, e); }
        PerformIdentity(Current(commits), op);
        CurrentSwapCommits(codec, t.(loaded := t.loaded - {worker}), Current(commits), op, after,
                           TryAppend(env, t.chain, e), id);
    }
  }

  /** Versions are ever committed for a stored row exactly if it stands for a change set; any other keeps its
      payload and history for good. */
  lemma UpdatesNeedOpening(env: Env, codec: PayloadCodec, s: GitSystem, steps: seq<GitStep>, id: string)
    requires Start(codec, s) && id in s.table.rows
    ensures var t := Exec(env, codec, s, steps);
            && id in t.table.rows
            && (id in t.commits <==> Opening(codec, s.table.rows[id], id).Some?)
            && (id !in t.commits ==>
                  && t.table.rows[id] == s.table.rows[id]
                  && ChangeHistory(t.chain.rows, id) == ChangeHistory(s.chain.rows, id))
  {
    StartIsGood(env, codec, s);
    RunKeepsInv(env, codec, s, s, steps);
    var t := Exec(env, codec, s, steps);
    if Opening(codec, s.table.rows[id], id).Some? { OpeningsHaveVersions(codec, s, t, id); }
  }

  /** With the JSON text codec: a stored row that decodes is updatable exactly if its text is what the writer
      makes of a canonical document, its tenant column is the owner's, and its id the payload's. An updatable
      row is updated by every worker that has it to itself (UncontendedUpdateCommits). Any other is frozen:
      it may load, and every operation on it be performed, but no worker ever commits one. */
  lemma UpdatesNeedCanonicalText(env: Env, json: JsonCodec, s: GitSystem, steps: seq<GitStep>, id: string,
                                 cs: ChangeSet)
    requires Lossless(json) && Start(TextCodec(json), s) && id in s.table.rows
    requires TextCodec(json).decode(s.table.rows[id].payload, s.table.rows[id].tenant) == Some(cs)
    ensures var (t, row) := (Exec(env, TextCodec(json), s, steps), s.table.rows[id]);
            var d := json.read(row.payload).value;
            var asWritten := Canonical(d) && json.write(d) == row.payload;
            var updatable := asWritten && row.tenant == TenantOf(cs) && cs.changeId == id;
            && (id in t.commits <==> updatable)
            && (!updatable ==>
                  && id in t.table.rows && t.table.rows[id] == row
                  && ChangeHistory(t.chain.rows, id) == ChangeHistory(s.chain.rows, id))
  {
    UpdatesNeedOpening(env, TextCodec(json), s, steps, id);
    TextRoundTripsIffCanonical(json, s.table.rows[id].payload, s.table.rows[id].tenant);
  }

  /** One white space in front is enough: the document is canonical, the row loads, and it stays as it is. */
  lemma SpacedRowIsFrozen(env: Env, json: JsonCodec, s: GitSystem, steps: seq<GitStep>, id: string, cs: ChangeSet)
    requires Lossless(json) && Start(TextCodec(json), s) && id in s.table.rows && Constructed(cs)
    requires var (row, written) := (s.table.rows[id], TextCodec(json).encode(cs));
             row.payload == " " + written && json.read(row.payload) == json.read(written) && row.tenant == TenantOf(cs)
    ensures var row := s.table.rows[id];
            && TextCodec(json).decode(row.payload, row.tenant) == Some(cs) && Canonical(json.read(row.payload).value)
            && id in Exec(env, TextCodec(json), s, steps).table.rows
            && Exec(env, TextCodec(json), s, steps).table.rows[id] == row
  {
    var row := s.table.rows[id];
    SpacedPayloadIsRewritten(json, cs, row.tenant, row.payload);
    UpdatesNeedOpening(env, TextCodec(json), s, steps, id);
  }
}
