/** GitOps change sets: the status machine, the engine that drives it in place, and the payload codec. */
module GitOps {
  import opened Outcomes
  import opened Text
  import opened JsonValues
  import opened Documents

  datatype ChangeStatus = Proposed | PendingApproval | Approved | Applied | Verified | Rejected | Failed

  datatype Change = Change(
    resourceType: string, resourceId: string, field: string, desired: Doc, current: Doc, reason: string)

  datatype ChangeSet = ChangeSet(
    changeId: string, sourceActionId: string, changes: seq<Change>, status: ChangeStatus,
    requiresApproval: bool, approvedBy: Option<string>, commitMessage: string, metadata: Dict)

  function StatusText(s: ChangeStatus): string {
    match s
    case Proposed => "proposed"
    case PendingApproval => "pending_approval"
    case Approved => "approved"
    case Applied => "applied"
    case Verified => "verified"
    case Rejected => "rejected"
    case Failed => "failed"
  }

  /** What the constructors accept and leave behind. */
  predicate ChangeOk(c: Change) {
    && !Blank(c.resourceType) && !Blank(c.resourceId) && !Blank(c.field)
    && WellFormed(c.desired) && WellFormed(c.current)
  }

  predicate Constructed(cs: ChangeSet) {
    && !Blank(cs.changeId) && !Blank(cs.sourceActionId) && cs.changes != []
    && (forall i :: 0 <= i < |cs.changes| ==> ChangeOk(cs.changes[i]))
    && !(cs.requiresApproval && cs.status.Proposed?)
    && WellFormed(DObj(cs.metadata))
  }

  // ---- The engine, as functions --------------------------------------------------------

  function Target(c: Change): (string, string, string) {
    (c.resourceType, c.resourceId, c.field)
  }

  /** Change i repeats the target of an earlier one. */
  predicate Repeats(changes: seq<Change>, i: nat)
    requires i < |changes|
  {
    exists j :: 0 <= j < i && Target(changes[j]) == Target(changes[i])
  }

  predicate DistinctTargets(changes: seq<Change>) {
    forall i, j :: 0 <= i < j < |changes| ==> Target(changes[i]) != Target(changes[j])
  }

  function ObservedKey(c: Change): string {
    c.resourceType + "/" + c.resourceId + "/" + c.field
  }

  predicate Matches(changes: seq<Change>, observed: map<string, Json>) {
    forall i :: 0 <= i < |changes| ==>
      ObservedKey(changes[i]) in observed && observed[ObservedKey(changes[i])] == Plain(changes[i].desired)
  }

  datatype ApplyResult = ApplyResult(success: bool, dryRun: bool, status: ChangeStatus, appliedChanges: nat)

  /** Why, and with what stored status, an apply ends. */
  function ApplyOutcome(cs: ChangeSet, dryRun: bool): (ChangeSet, ApplyResult) {
    if cs.changes == [] || !DistinctTargets(cs.changes) then
      (cs.(status := Failed), ApplyResult(false, dryRun, Failed, 0))
    else if (cs.requiresApproval && !cs.status.Approved?) || cs.status.Rejected? then
      (cs, ApplyResult(false, dryRun, cs.status, 0))
    else if !dryRun then
      (cs, ApplyResult(false, false, Failed, 0))
    else
      (cs.(status := Applied), ApplyResult(true, true, Applied, |cs.changes|))
  }

  datatype Op =
    | Approve(who: string)
    | Reject(who: string, reason: string)
    | Apply(dryRun: bool)
    | Verify(observed: Option<map<string, Json>>)

  /** The engine's effect on a change set; None where it raises and changes nothing. */
  function Perform(cs: ChangeSet, op: Op): Option<ChangeSet> {
    match op
    case Approve(who) =>
      if cs.status.PendingApproval? && !Blank(who) then Some(cs.(approvedBy := Some(who), status := Approved)) else None
    case Reject(who, reason) =>
      if cs.status.PendingApproval? && !Blank(who) && !Blank(reason) then
        Some(cs.(status := Rejected,
                 metadata := SetItem(SetItem(cs.metadata, "rejected_by", DStr(who)), "rejection_reason", DStr(reason))))
      else None
    case Apply(dryRun) => Some(ApplyOutcome(cs, dryRun).0)
    case Verify(observed) =>
      if !cs.status.Applied? then None
      else Some(cs.(status := if observed.None? || Matches(cs.changes, observed.value) then Verified else Failed))
  }

  // ---- What the operations do ------------------------------------------------------------

  /** Two changes aim at one field of one resource. */
  predicate SameTarget(a: Change, b: Change) {
    a.resourceType == b.resourceType && a.resourceId == b.resourceId && a.field == b.field
  }

  /** There is a change, and no two aim at the same field. */
  predicate Applicable(changes: seq<Change>) {
    changes != [] && forall i, j :: 0 <= i < j < |changes| ==> !SameTarget(changes[i], changes[j])
  }

  /** Every change's desired value was observed, under "type/id/field". */
  predicate Shows(observed: map<string, Json>, changes: seq<Change>) {
    forall i :: 0 <= i < |changes| ==>
      Get(observed, changes[i].resourceType + "/" + changes[i].resourceId + "/" + changes[i].field)
      == Some(Plain(changes[i].desired))
  }

  /** What apply demands of the status. */
  predicate MayApply(cs: ChangeSet) {
    !cs.status.Rejected? && (cs.requiresApproval ==> cs.status.Approved?)
  }

  predicate Admitted(cs: ChangeSet, op: Op) {
    && (op.Approve? || op.Reject? ==> cs.status.PendingApproval? && !Blank(op.who))
    && (op.Reject? ==> !Blank(op.reason))
    && (op.Verify? ==> cs.status.Applied?)
  }

  function StatusAfter(cs: ChangeSet, op: Op): ChangeStatus {
    match op
    case Approve(_) => Approved
    case Reject(_, _) => Rejected
    case Apply(dryRun) =>
      if !Applicable(cs.changes) then Failed else if dryRun && MayApply(cs) then Applied else cs.status
    case Verify(observed) => if observed.Some? && !Shows(observed.value, cs.changes) then Failed else Verified
  }

  /** What an admitted operation leaves of each field. */
  ghost predicate DoneTo(cs: ChangeSet, op: Op, next: ChangeSet) {
    && next.changeId == cs.changeId && next.sourceActionId == cs.sourceActionId && next.changes == cs.changes
    && next.requiresApproval == cs.requiresApproval && next.commitMessage == cs.commitMessage
    && next.status == StatusAfter(cs, op)
    && next.approvedBy == (if op.Approve? then Some(op.who) else cs.approvedBy)
    && (!op.Reject? ==> next.metadata == cs.metadata)
    && (op.Reject? ==>
          && Find(next.metadata, "rejected_by") == Some(DStr(op.who))
          && Find(next.metadata, "rejection_reason") == Some(DStr(op.reason))
          && forall k :: k != "rejected_by" && k != "rejection_reason" ==>
               Find(next.metadata, k) == Find(cs.metadata, k))
  }

  /** A rejection adds its two entries and changes no other. */
  lemma RejectionIsRecorded(metadata: Dict, who: string, reason: string)
    ensures var next := SetItem(SetItem(metadata, "rejected_by", DStr(who)), "rejection_reason", DStr(reason));
            && Find(next, "rejected_by") == Some(DStr(who)) && Find(next, "rejection_reason") == Some(DStr(reason))
            && forall k :: k != "rejected_by" && k != "rejection_reason" ==> Find(next, k) == Find(metadata, k)
  {
    SetItemFinds(metadata, "rejected_by", DStr(who));
    SetItemFinds(SetItem(metadata, "rejected_by", DStr(who)), "rejection_reason", DStr(reason));
    assert "rejected_by" != "rejection_reason";
  }

  lemma MatchesShows(changes: seq<Change>, observed: map<string, Json>)
    ensures Matches(changes, observed) <==> Shows(observed, changes)
  {
    forall i | 0 <= i < |changes|
      ensures ObservedKey(changes[i]) == changes[i].resourceType + "/" + changes[i].resourceId + "/" + changes[i].field
    {
    }
  }

  lemma ValidIsApplicable(changes: seq<Change>)
    ensures changes != [] && DistinctTargets(changes) <==> Applicable(changes)
  {
    forall i, j | 0 <= i < j < |changes|
      ensures Target(changes[i]) != Target(changes[j]) <==> !SameTarget(changes[i], changes[j])
    {
    }
  }

  lemma ApplyDoes(cs: ChangeSet, dryRun: bool)
    ensures var (next, r) := ApplyOutcome(cs, dryRun);
            && DoneTo(cs, Apply(dryRun), next)
            && (r.success <==> dryRun && Applicable(cs.changes) && MayApply(cs))
            && r.dryRun == dryRun && r.appliedChanges == (if r.success then |cs.changes| else 0)
            && (r.success ==> r.status.Applied?)
            && (!Applicable(cs.changes) ==> r.status.Failed?)
            && (Applicable(cs.changes) && !MayApply(cs) ==> r.status == cs.status)
            && (Applicable(cs.changes) && MayApply(cs) && !dryRun ==> r.status.Failed?)
  {
    ValidIsApplicable(cs.changes);
  }

  /** The engine raises exactly where an operation is not admitted. Otherwise an approval names its approver,
      a rejection who rejected and why, apply settles the status by targets, approval and mode, and verify
      finds a change set verified exactly when every desired value was observed, or none was asked for. */
  lemma OperationsDoTheirWork(cs: ChangeSet, op: Op)
    ensures Perform(cs, op).Some? <==> Admitted(cs, op)
    ensures Perform(cs, op).Some? ==> DoneTo(cs, op, Perform(cs, op).value)
  {
    match op {
      case Approve(_) =>
      case Reject(who, reason) => RejectionIsRecorded(cs.metadata, who, reason);
      case Apply(dryRun) => ApplyDoes(cs, dryRun);
      case Verify(observed) => if observed.Some? { MatchesShows(cs.changes, observed.value); }
    }
  }

  // ---- The engine, in place --------------------------------------------------------------

  class GitOpsChangeSet {
    const changeId: string
    const sourceActionId: string
    const changes: seq<Change>
    const requiresApproval: bool
    const commitMessage: string
    var status: ChangeStatus
    var approvedBy: Option<string>
    var metadata: Dict

    constructor (cs: ChangeSet)
      ensures View() == cs
    {
      changeId, sourceActionId, changes := cs.changeId, cs.sourceActionId, cs.changes;
      requiresApproval, commitMessage := cs.requiresApproval, cs.commitMessage;
      status, approvedBy, metadata := cs.status, cs.approvedBy, cs.metadata;
    }

    function View(): ChangeSet
      reads this
    {
      ChangeSet(changeId, sourceActionId, changes, status, requiresApproval, approvedBy, commitMessage, metadata)
    }

    method ApproveSet(who: string) returns (ok: bool)
      modifies this
      ensures ok <==> Perform(old(View()), Approve(who)).Some?
      ensures View() == if ok then Perform(old(View()), Approve(who)).value else old(View())
      ensures ok <==> old(status).PendingApproval? && !Blank(who)
      ensures ok ==> status.Approved? && approvedBy == Some(who) && metadata == old(metadata)
    {
      if status != PendingApproval { return false; }
      if Blank(who) { return false; }
      approvedBy := Some(who);
      status := Approved;
      ok := true;
    }

    method RejectSet(who: string, reason: string) returns (ok: bool)
      modifies this
      ensures ok <==> Perform(old(View()), Reject(who, reason)).Some?
      ensures View() == if ok then Perform(old(View()), Reject(who, reason)).value else old(View())
      ensures ok <==> old(status).PendingApproval? && !Blank(who) && !Blank(reason)
      ensures ok ==> status.Rejected? && approvedBy == old(approvedBy)
      ensures ok ==> Find(metadata, "rejected_by") == Some(DStr(who))
      ensures ok ==> Find(metadata, "rejection_reason") == Some(DStr(reason))
    {
      RejectionIsRecorded(metadata, who, reason);
      if status != PendingApproval { return false; }
      if Blank(who) { return false; }
      if Blank(reason) { return false; }
      status := Rejected;
      metadata := SetItem(metadata, "rejected_by", DStr(who));
      metadata := SetItem(metadata, "rejection_reason", DStr(reason));
      ok := true;
    }

    /** validate: an error for an empty change set and one for every repeated target. */
    method Validate() returns (empty: bool, repeated: seq<nat>)
      ensures empty <==> changes == []
      ensures forall i: nat :: i in repeated <==> i < |changes| && Repeats(changes, i)
      ensures !empty && repeated == [] <==> changes != [] && DistinctTargets(changes)
      ensures !empty && repeated == [] <==> Applicable(changes)
    {
      ValidIsApplicable(changes);
      empty, repeated := changes == [], [];
      var seen: set<(string, string, string)> := {};
      for i := 0 to |changes|
        invariant seen == set j | 0 <= j < i :: Target(changes[j])
        invariant forall k: nat :: k in repeated <==> k < i && Repeats(changes, k)
      {
        assert Target(changes[i]) in seen <==> Repeats(changes, i);
        if Target(changes[i]) in seen {
          repeated := repeated + [i];
        }
        seen := seen + {Target(changes[i])};
      }
      if repeated == [] {
        forall i, j | 0 <= i < j < |changes| ensures Target(changes[i]) != Target(changes[j]) {
          assert j !in repeated;
        }
      }
      assert repeated != [] ==> !DistinctTargets(changes) by {
        if repeated != [] { assert repeated[0] in repeated; }
      }
    }

    method ApplySet(dryRun: bool) returns (r: ApplyResult)
      modifies this
      ensures (View(), r) == ApplyOutcome(old(View()), dryRun)
      ensures r.success <==> dryRun && Applicable(changes) && MayApply(old(View()))
      ensures DoneTo(old(View()), Apply(dryRun), View())
    {
      ApplyDoes(View(), dryRun);
      var empty, repeated := Validate();
      if empty || repeated != [] {
        status := Failed;
        return ApplyResult(false, dryRun, Failed, 0);
      }
      if requiresApproval && status != Approved { return ApplyResult(false, dryRun, status, 0); }
      if status == Rejected { return ApplyResult(false, dryRun, Rejected, 0); }
      if !dryRun { return ApplyResult(false, false, Failed, 0); }
      status := Applied;
      r := ApplyResult(true, true, Applied, |changes|);
    }

    /** verify: None where it raises, else whether every desired value was observed. */
    method VerifySet(observed: Option<map<string, Json>>) returns (r: Option<bool>)
      modifies this
      ensures r.Some? <==> Perform(old(View()), Verify(observed)).Some?
      ensures View() == if r.Some? then Perform(old(View()), Verify(observed)).value else old(View())
      ensures r.Some? ==> (r.value <==> status.Verified?)
      ensures r.Some? <==> old(status).Applied?
      ensures r.Some? ==> (r.value <==> observed.None? || Shows(observed.value, changes))
      ensures r.Some? ==> status == if r.value then Verified else Failed
    {
      if observed.Some? { MatchesShows(changes, observed.value); }
      if status != Applied { return None; }
      if observed.None? {
        status := Verified;
        return Some(true);
      }
      for i := 0 to |changes|
        invariant status == old(status) && View() == old(View())
        invariant forall j :: 0 <= j < i ==>
                    && ObservedKey(changes[j]) in observed.value
                    && observed.value[ObservedKey(changes[j])] == Plain(changes[j].desired)
      {
        var key := ObservedKey(changes[i]);
        if key !in observed.value {
          status := Failed;
          return Some(false);
        }
        if observed.value[key] != Plain(changes[i].desired) {
          status := Failed;
          return Some(false);
        }
      }
      status := Verified;
      r := Some(true);
    }
  }

  // ---- What the machine keeps --------------------------------------------------------------

  /** Nothing that needs approval is approved, applied or verified without a named approver, and
      nothing is applied or verified with two changes to one target. */
  predicate Sound(cs: ChangeSet) {
    && (cs.requiresApproval && cs.status in {Approved, Applied, Verified} ==>
          cs.approvedBy.Some? && !Blank(cs.approvedBy.value))
    && (cs.status in {Applied, Verified} ==> DistinctTargets(cs.changes))
  }

  /** Every operation keeps what the constructors guarantee, the identity of the change set and its
      soundness; pending approval is only kept, never entered, and every decision leaves it. */
  lemma PerformKeeps(cs: ChangeSet, op: Op)
    requires Constructed(cs) && Perform(cs, op).Some?
    ensures var next := Perform(cs, op).value;
            && Constructed(next) && (Sound(cs) ==> Sound(next))
            && next.changeId == cs.changeId && next.sourceActionId == cs.sourceActionId
            && next.changes == cs.changes && next.requiresApproval == cs.requiresApproval
            && (next.status.PendingApproval? ==> next == cs)
            && (op.Approve? || op.Reject? ==> cs.status.PendingApproval? && !next.status.PendingApproval?)
  {
    if op.Reject? {
      SetItemKeepsForm(cs.metadata, "rejected_by", DStr(op.who));
      SetItemKeepsForm(SetItem(cs.metadata, "rejected_by", DStr(op.who)), "rejection_reason", DStr(op.reason));
    }
  }

  /** The machine has no terminal status: duplicated targets fail any change set, a rejected one too;
      and one that needs no approval can be applied again from every status but rejected. */
  lemma ApplyIsNotGuardedByStatus(cs: ChangeSet)
    ensures !DistinctTargets(cs.changes) ==> Perform(cs, Apply(true)) == Some(cs.(status := Failed))
    ensures Constructed(cs) && DistinctTargets(cs.changes) && !cs.requiresApproval ==>
              (Perform(cs, Apply(true)).value.status.Applied? <==> !cs.status.Rejected?)
    ensures var (after, r) := ApplyOutcome(cs, false);
            r.status != after.status ==> after == cs && r == ApplyResult(false, false, Failed, 0)
  {
  }

  // ---- The payload document ----------------------------------------------------------------

  function OptionalText(s: Option<string>): Doc {
    if s.Some? then DStr(s.value) else DNull
  }

  const CHANGE_KEYS: seq<string> :=
    ["resource_type", "resource_id", "field", "desired_value", "current_value", "reason"]

  const PAYLOAD_KEYS: seq<string> := ["change_id", "source_action_id", "status", "requires_approval", "approved_by",
                                      "commit_message", "changes", "metadata"]

  /** to_dict. */
  function EncodeChange(c: Change): Doc {
    DObj([("resource_type", DStr(c.resourceType)), ("resource_id", DStr(c.resourceId)), ("field", DStr(c.field)),
          ("desired_value", c.desired), ("current_value", c.current), ("reason", DStr(c.reason))])
  }

  function EncodeChanges(changes: seq<Change>): (items: seq<Doc>)
    ensures |items| == |changes|
  {
    seq(|changes|, i requires 0 <= i < |changes| => EncodeChange(changes[i]))
  }

  /** to_manifest. */
  function Encode(cs: ChangeSet): Doc {
    DObj([("change_id", DStr(cs.changeId)), ("source_action_id", DStr(cs.sourceActionId)),
          ("status", DStr(StatusText(cs.status))), ("requires_approval", DBool(cs.requiresApproval)),
          ("approved_by", OptionalText(cs.approvedBy)), ("commit_message", DStr(cs.commitMessage)),
          ("changes", DArr(EncodeChanges(cs.changes))), ("metadata", DObj(cs.metadata))])
  }

  function ParseStatus(s: string): Option<ChangeStatus> {
    if s == "proposed" then Some(Proposed)
    else if s == "pending_approval" then Some(PendingApproval)
    else if s == "approved" then Some(Approved)
    else if s == "applied" then Some(Applied)
    else if s == "verified" then Some(Verified)
    else if s == "rejected" then Some(Rejected)
    else if s == "failed" then Some(Failed)
    else None
  }

  function TextOf(fields: Dict, key: string): Option<string> {
    var found := Find(fields, key);
    if found.Some? && found.value.DStr? then Some(found.value.s) else None
  }

  /** value.get(key, default). */
  function FindOr(fields: Dict, key: string, fallback: Doc): Doc {
    var found := Find(fields, key);
    if found.Some? then found.value else fallback
  }

  function AsText(d: Doc): Option<string> {
    if d.DStr? then Some(d.s) else None
  }

  function AsOptionalText(d: Doc): Option<Option<string>> {
    if d.DNull? then Some(None) else if d.DStr? then Some(Some(d.s)) else None
  }

  predicate OnlyChangeKeys(fields: Dict) {
    forall i :: 0 <= i < |fields| ==> fields[i].0 in CHANGE_KEYS
  }

  /** GitOpsChange(**value). */
  function DecodeChange(d: Doc): Option<Change> {
    if !d.DObj? || !OnlyChangeKeys(d.fields) then None
    else
      var f := d.fields;
      var (kind, id, field) := (TextOf(f, "resource_type"), TextOf(f, "resource_id"), TextOf(f, "field"));
      var (desired, reason) := (Find(f, "desired_value"), AsText(FindOr(f, "reason", DStr(""))));
      if kind.None? || id.None? || field.None? || desired.None? || reason.None?
         || Blank(kind.value) || Blank(id.value) || Blank(field.value)
      then None
      else Some(Change(kind.value, id.value, field.value, desired.value, FindOr(f, "current_value", DNull),
                       reason.value))
  }

  function DecodeChanges(items: seq<Doc>): Option<seq<Change>> {
    if items == [] then Some([])
    else
      match (DecodeChange(items[0]), DecodeChanges(items[1..]))
      case (Some(c), Some(rest)) => Some([c] + rest)
      case _ => None
  }

  /** The tenant column agrees with the payload's ownership metadata, when there is one. */
  predicate TenantAgrees(metadata: Dict, tenant: Option<string>) {
    tenant.Some? ==> Find(metadata, "tenant_id") == Some(DStr(tenant.value))
  }

  /** GitOpsChangeSet.__post_init__. */
  function Construct(id: string, source: string, changes: seq<Change>, status: ChangeStatus, needsApproval: bool,
                     approvedBy: Option<string>, message: string, metadata: Dict): Option<ChangeSet>
  {
    if Blank(id) || Blank(source) || changes == [] then None
    else
      Some(ChangeSet(id, source, changes, if needsApproval && status.Proposed? then PendingApproval else status,
                     needsApproval, approvedBy, message, metadata))
  }

  /** _decode on a read payload, constructor included; None where it raises. */
  function Decode(d: Doc, tenant: Option<string>): Option<ChangeSet> {
    if !d.DObj? then None
    else
      var f := d.fields;
      var (id, source) := (TextOf(f, "change_id"), TextOf(f, "source_action_id"));
      var status := if TextOf(f, "status").Some? then ParseStatus(TextOf(f, "status").value) else None;
      var approver := AsOptionalText(FindOr(f, "approved_by", DNull));
      var message := AsText(FindOr(f, "commit_message", DStr("")));
      var (metadata, needs) := (FindOr(f, "metadata", DObj([])), FindOr(f, "requires_approval", DNull));
      var items := FindOr(f, "changes", DNull);
      var changes := if items.DArr? then DecodeChanges(items.items) else None;
      if id.None? || source.None? || status.None? || approver.None? || message.None? || changes.None?
         || !metadata.DObj? || !TenantAgrees(metadata.fields, tenant) || !needs.DBool?
      then None
      else Construct(id.value, source.value, changes.value, status.value, needs.b,
                     approver.value, message.value, metadata.fields)
  }

  // ---- Creation ----------------------------------------------------------------------------

  /** create_change_set; `digest` is the first 16 hexadecimal digits of the SHA-256 of the source action
      and the canonical changes. None where it raises. */
  function CreateChangeSet(digest: (string, seq<Change>) -> string, source: string, changes: seq<Change>,
                           requiresApproval: bool, message: string, metadata: Dict): Option<ChangeSet>
  {
    if Blank(source) || changes == [] then None
    else
      Construct("change-" + digest(source, changes), source, changes, Proposed, requiresApproval, None,
                if message != "" then message
                else "cloudops-ai: apply " + Decimal(|changes|) + " infrastructure change(s)",
                metadata)
  }

  /** Creation fails only for a blank source or no changes. What it returns is constructed and sound,
      awaits approval exactly if it needs one, and names no approver; equal sources and changes get
      equal ids. */
  lemma CreatedIsSound(digest: (string, seq<Change>) -> string, source: string, changes: seq<Change>,
                       requiresApproval: bool, message: string, metadata: Dict)
    requires WellFormed(DObj(metadata)) && forall i :: 0 <= i < |changes| ==> ChangeOk(changes[i])
    ensures var created := CreateChangeSet(digest, source, changes, requiresApproval, message, metadata);
            && (created.Some? <==> !Blank(source) && changes != [])
            && (created.Some? ==>
                  var cs := created.value;
                  && Constructed(cs) && Sound(cs)
                  && (cs.status.PendingApproval? <==> cs.requiresApproval) && cs.approvedBy.None?
                  && (cs.changes, cs.metadata) == (changes, metadata) && cs.commitMessage != ""
                  && cs.changeId == "change-" + digest(source, changes) && cs.sourceActionId == source
                  && cs.requiresApproval == requiresApproval && (message != "" ==> cs.commitMessage == message)
                  && forall other: bool, note: string, more: Dict ::
                       CreateChangeSet(digest, source, changes, other, note, more).Some?
                       && CreateChangeSet(digest, source, changes, other, note, more).value.changeId == cs.changeId)
  {
    assert !IsSpace(("change-" + digest(source, changes))[0]);
    assert !Blank("change-" + digest(source, changes));
  }

  // ---- Round trips ---------------------------------------------------------------------------

  lemma ChangeKeysDiffer()
    ensures forall i, j :: 0 <= i < j < |CHANGE_KEYS| ==> CHANGE_KEYS[i] != CHANGE_KEYS[j]
  {
    assert CHANGE_KEYS[0][0] == 'r' && CHANGE_KEYS[3][0] == 'd' && CHANGE_KEYS[4][0] == 'c';
  }

  lemma FullChangeFields(f: Dict)
    requires KeysOf(f) == CHANGE_KEYS
    ensures Find(f, "resource_type") == Some(f[0].1) && Find(f, "resource_id") == Some(f[1].1)
    ensures Find(f, "field") == Some(f[2].1)
    ensures Find(f, "desired_value") == Some(f[3].1) && Find(f, "current_value") == Some(f[4].1)
    ensures Find(f, "reason") == Some(f[5].1)
  {
    ChangeKeysDiffer();
    KeyFinds(f, CHANGE_KEYS, 0);
    KeyFinds(f, CHANGE_KEYS, 1);
    KeyFinds(f, CHANGE_KEYS, 2);
    KeyFinds(f, CHANGE_KEYS, 3);
    KeyFinds(f, CHANGE_KEYS, 4);
    KeyFinds(f, CHANGE_KEYS, 5);
  }

  lemma PayloadKeysDiffer()
    ensures forall i, j :: 0 <= i < j < |PAYLOAD_KEYS| ==> PAYLOAD_KEYS[i] != PAYLOAD_KEYS[j]
  {
  }

  lemma PayloadFields(f: Dict)
    requires KeysOf(f) == PAYLOAD_KEYS
    ensures Find(f, "change_id") == Some(f[0].1) && Find(f, "source_action_id") == Some(f[1].1)
    ensures Find(f, "status") == Some(f[2].1) && Find(f, "requires_approval") == Some(f[3].1)
    ensures Find(f, "approved_by") == Some(f[4].1) && Find(f, "commit_message") == Some(f[5].1)
    ensures Find(f, "changes") == Some(f[6].1) && Find(f, "metadata") == Some(f[7].1)
  {
    PayloadKeysDiffer();
    KeyFinds(f, PAYLOAD_KEYS, 0);
    KeyFinds(f, PAYLOAD_KEYS, 1);
    KeyFinds(f, PAYLOAD_KEYS, 2);
    KeyFinds(f, PAYLOAD_KEYS, 3);
    KeyFinds(f, PAYLOAD_KEYS, 4);
    KeyFinds(f, PAYLOAD_KEYS, 5);
    KeyFinds(f, PAYLOAD_KEYS, 6);
    KeyFinds(f, PAYLOAD_KEYS, 7);
  }

  lemma EncodedChangeFields(c: Change)
    ensures var f := EncodeChange(c).fields;
            && Find(f, "resource_type") == Some(DStr(c.resourceType))
            && Find(f, "resource_id") == Some(DStr(c.resourceId))
            && Find(f, "field") == Some(DStr(c.field)) && Find(f, "desired_value") == Some(c.desired)
            && Find(f, "current_value") == Some(c.current) && Find(f, "reason") == Some(DStr(c.reason))
            && OnlyChangeKeys(f) && KeysOf(f) == CHANGE_KEYS
  {
    var f := EncodeChange(c).fields;
    assert KeysOf(f) == CHANGE_KEYS;
    FullChangeFields(f);
    forall i | 0 <= i < |f| ensures f[i].0 in CHANGE_KEYS { assert KeysOf(f)[i] == CHANGE_KEYS[i]; }
  }

  lemma EncodedFields(cs: ChangeSet)
    ensures var f := Encode(cs).fields;
            && Find(f, "change_id") == Some(DStr(cs.changeId))
            && Find(f, "source_action_id") == Some(DStr(cs.sourceActionId))
            && Find(f, "status") == Some(DStr(StatusText(cs.status)))
            && Find(f, "requires_approval") == Some(DBool(cs.requiresApproval))
            && Find(f, "approved_by") == Some(OptionalText(cs.approvedBy))
            && Find(f, "commit_message") == Some(DStr(cs.commitMessage))
            && Find(f, "changes") == Some(DArr(EncodeChanges(cs.changes)))
            && Find(f, "metadata") == Some(DObj(cs.metadata))
            && KeysOf(f) == PAYLOAD_KEYS
  {
    assert KeysOf(Encode(cs).fields) == PAYLOAD_KEYS;
    PayloadFields(Encode(cs).fields);
  }

  lemma ChangeRoundTrip(c: Change)
    requires ChangeOk(c)
    ensures DecodeChange(EncodeChange(c)) == Some(c)
  {
    EncodedChangeFields(c);
  }

  lemma EncodedCons(first: Change, rest: seq<Change>)
    ensures EncodeChanges([first] + rest) == [EncodeChange(first)] + EncodeChanges(rest)
  {
  }

  lemma {:induction false} ChangesRoundTrip(changes: seq<Change>)
    requires forall i :: 0 <= i < |changes| ==> ChangeOk(changes[i])
    ensures DecodeChanges(EncodeChanges(changes)) == Some(changes)
  {
    if changes != [] {
      ChangeRoundTrip(changes[0]);
      ChangesRoundTrip(changes[1..]);
      EncodedCons(changes[0], changes[1..]);
      assert changes == [changes[0]] + changes[1..];
    }
  }

  lemma StatusRoundTrip(s: ChangeStatus)
    ensures ParseStatus(StatusText(s)) == Some(s)
  {
  }

  /** Decoding looks up keys, so neither their order nor further keys matter. */
  lemma DecodeLooksUp(f: Dict, cs: ChangeSet, status: ChangeStatus, tenant: Option<string>)
    requires TenantAgrees(cs.metadata, tenant) && DecodeChanges(EncodeChanges(cs.changes)) == Some(cs.changes)
    requires Find(f, "change_id") == Some(DStr(cs.changeId))
    requires Find(f, "source_action_id") == Some(DStr(cs.sourceActionId))
    requires Find(f, "status") == Some(DStr(StatusText(status)))
    requires Find(f, "requires_approval") == Some(DBool(cs.requiresApproval))
    requires Find(f, "approved_by") == Some(OptionalText(cs.approvedBy))
    requires FindOr(f, "commit_message", DStr("")) == DStr(cs.commitMessage)
    requires Find(f, "changes") == Some(DArr(EncodeChanges(cs.changes)))
    requires Find(f, "metadata") == Some(DObj(cs.metadata))
    ensures Decode(DObj(f), tenant)
            == Construct(cs.changeId, cs.sourceActionId, cs.changes, status, cs.requiresApproval,
                         cs.approvedBy, cs.commitMessage, cs.metadata)
  {
    StatusRoundTrip(status);
  }

  /** Decoding an encoded change set gives it back, for everything the constructors can produce. */
  lemma DecodeInvertsEncode(cs: ChangeSet, tenant: Option<string>)
    requires Constructed(cs) && TenantAgrees(cs.metadata, tenant)
    ensures Decode(Encode(cs), tenant) == Some(cs)
  {
    EncodedFields(cs);
    ChangesRoundTrip(cs.changes);
    DecodeLooksUp(Encode(cs).fields, cs, cs.status, tenant);
  }

  /** Hence encoding is injective on constructed change sets. */
  lemma EncodeIsInjective(a: ChangeSet, b: ChangeSet)
    requires Constructed(a) && Constructed(b) && Encode(a) == Encode(b)
    ensures a == b
  {
    DecodeInvertsEncode(a, None);
    DecodeInvertsEncode(b, None);
  }

  /** Whatever decodes was constructed. */
  lemma DecodedChangeIsOk(d: Doc)
    requires WellFormed(d) && DecodeChange(d).Some?
    ensures ChangeOk(DecodeChange(d).value)
  {
    FoundIsWellFormed(d.fields, "desired_value");
    if Find(d.fields, "current_value").Some? { FoundIsWellFormed(d.fields, "current_value"); }
  }

  lemma {:induction false} DecodedChangesAreOk(items: seq<Doc>)
    requires forall i :: 0 <= i < |items| ==> WellFormed(items[i])
    ensures DecodeChanges(items).Some? ==>
              && |DecodeChanges(items).value| == |items|
              && forall i :: 0 <= i < |items| ==> ChangeOk(DecodeChanges(items).value[i])
  {
    if items != [] {
      DecodedChangesAreOk(items[1..]);
      if DecodeChange(items[0]).Some? { DecodedChangeIsOk(items[0]); }
    }
  }

  lemma DecodedIsConstructed(d: Doc, tenant: Option<string>)
    requires WellFormed(d) && Decode(d, tenant).Some?
    ensures Constructed(Decode(d, tenant).value)
  {
    FoundIsWellFormed(d.fields, "changes");
    DecodedChangesAreOk(Find(d.fields, "changes").value.items);
    if Find(d.fields, "metadata").Some? { FoundIsWellFormed(d.fields, "metadata"); }
  }

  // ---- Re-encoding -------------------------------------------------------------------------

  predicate FullChange(item: Doc) {
    item.DObj? && KeysOf(item.fields) == CHANGE_KEYS
  }

  /** Exactly the keys the encoder writes, in its order, and not a status the constructor would change. */
  predicate Canonical(d: Doc) {
    && d.DObj? && KeysOf(d.fields) == PAYLOAD_KEYS
    && d.fields[6].1.DArr?
    && (forall i :: 0 <= i < |d.fields[6].1.items| ==> FullChange(d.fields[6].1.items[i]))
    && !(d.fields[3].1 == DBool(true) && d.fields[2].1 == DStr("proposed"))
  }

  /** What decoding a change found. */
  lemma DecodedChangeFields(f: Dict, c: Change)
    requires DecodeChange(DObj(f)) == Some(c)
    ensures Find(f, "resource_type") == Some(DStr(c.resourceType)) && Find(f, "resource_id") == Some(DStr(c.resourceId))
    ensures Find(f, "field") == Some(DStr(c.field)) && Find(f, "desired_value") == Some(c.desired)
    ensures FindOr(f, "current_value", DNull) == c.current && FindOr(f, "reason", DStr("")) == DStr(c.reason)
  {
  }

  lemma SameKeys(f: Dict, g: Dict)
    requires KeysOf(f) == KeysOf(g)
    ensures |f| == |g| && forall i :: 0 <= i < |f| ==> f[i].0 == g[i].0
  {
    forall i | 0 <= i < |f| ensures f[i].0 == g[i].0 {
      assert KeysOf(f)[i] == KeysOf(g)[i];
    }
  }

  lemma FullChangeIsEncoded(f: Dict, c: Change)
    requires Find(f, "resource_type") == Some(DStr(c.resourceType))
    requires Find(f, "resource_id") == Some(DStr(c.resourceId))
    requires Find(f, "field") == Some(DStr(c.field)) && Find(f, "desired_value") == Some(c.desired)
    requires FindOr(f, "current_value", DNull) == c.current && FindOr(f, "reason", DStr("")) == DStr(c.reason)
    ensures EncodeChange(c) == DObj(f) <==> KeysOf(f) == CHANGE_KEYS
  {
    var g := EncodeChange(c).fields;
    assert KeysOf(g) == CHANGE_KEYS;
    if KeysOf(f) == CHANGE_KEYS {
      FullChangeFields(f);
      SameKeys(f, g);
      assert f == g;
    }
  }

  lemma ReencodedChange(item: Doc)
    requires DecodeChange(item).Some?
    ensures EncodeChange(DecodeChange(item).value) == item <==> FullChange(item)
  {
    DecodedChangeFields(item.fields, DecodeChange(item).value);
    FullChangeIsEncoded(item.fields, DecodeChange(item).value);
  }

  lemma {:induction false} ReencodedChanges(items: seq<Doc>)
    requires DecodeChanges(items).Some?
    ensures |DecodeChanges(items).value| == |items|
    ensures EncodeChanges(DecodeChanges(items).value) == items
            <==> forall i :: 0 <= i < |items| ==> FullChange(items[i])
  {
    if items != [] {
      var (first, rest) := (DecodeChange(items[0]).value, DecodeChanges(items[1..]).value);
      ReencodedChange(items[0]);
      ReencodedChanges(items[1..]);
      EncodedCons(first, rest);
      assert items == [items[0]] + items[1..];
      assert (forall i :: 0 <= i < |items| ==> FullChange(items[i]))
        <==> FullChange(items[0]) && forall i :: 0 <= i < |items[1..]| ==> FullChange(items[1..][i]);
    }
  }

  lemma ParsedStatusText(s: string)
    requires ParseStatus(s).Some?
    ensures StatusText(ParseStatus(s).value) == s
  {
  }

  /** What decoding found. */
  lemma DecodedFields(f: Dict, tenant: Option<string>, cs: ChangeSet)
    requires Decode(DObj(f), tenant) == Some(cs)
    ensures Find(f, "change_id") == Some(DStr(cs.changeId))
    ensures Find(f, "source_action_id") == Some(DStr(cs.sourceActionId))
    ensures Find(f, "requires_approval") == Some(DBool(cs.requiresApproval))
    ensures FindOr(f, "approved_by", DNull) == OptionalText(cs.approvedBy)
    ensures FindOr(f, "commit_message", DStr("")) == DStr(cs.commitMessage)
    ensures FindOr(f, "metadata", DObj([])) == DObj(cs.metadata)
  {
  }

  lemma DecodedStatus(f: Dict, tenant: Option<string>, cs: ChangeSet)
    requires Decode(DObj(f), tenant) == Some(cs)
    ensures var proposed := Find(f, "status") == Some(DStr("proposed"));
            var rewritten := Find(f, "requires_approval") == Some(DBool(true)) && proposed;
            Find(f, "status") == Some(DStr(StatusText(cs.status))) <==> !rewritten
  {
    ParsedStatusText(TextOf(f, "status").value);
  }

  lemma DecodedItems(f: Dict, tenant: Option<string>, cs: ChangeSet)
    requires Decode(DObj(f), tenant) == Some(cs)
    ensures Find(f, "changes").Some? && Find(f, "changes").value.DArr?
    ensures DecodeChanges(Find(f, "changes").value.items) == Some(cs.changes)
  {
  }

  /** Only a document with the encoder's keys is what a change set encodes to, and only if each entry is. */
  lemma FullPayloadIsEncoded(f: Dict, cs: ChangeSet)
    requires Find(f, "change_id") == Some(DStr(cs.changeId))
    requires Find(f, "source_action_id") == Some(DStr(cs.sourceActionId))
    requires Find(f, "requires_approval") == Some(DBool(cs.requiresApproval))
    requires FindOr(f, "approved_by", DNull) == OptionalText(cs.approvedBy)
    requires FindOr(f, "commit_message", DStr("")) == DStr(cs.commitMessage)
    requires FindOr(f, "metadata", DObj([])) == DObj(cs.metadata)
    ensures Encode(cs) == DObj(f) <==>
              && KeysOf(f) == PAYLOAD_KEYS
              && Find(f, "status") == Some(DStr(StatusText(cs.status)))
              && Find(f, "changes") == Some(DArr(EncodeChanges(cs.changes)))
  {
    EncodedFields(cs);
    if KeysOf(f) == PAYLOAD_KEYS {
      PayloadFields(f);
      SameKeys(f, Encode(cs).fields);
    }
  }

  lemma EncodedBackIffCanonical(f: Dict, tenant: Option<string>, cs: ChangeSet)
    requires Decode(DObj(f), tenant) == Some(cs)
    ensures Encode(cs) == DObj(f) <==> Canonical(DObj(f))
  {
    DecodedFields(f, tenant, cs);
    DecodedStatus(f, tenant, cs);
    DecodedItems(f, tenant, cs);
    FullPayloadIsEncoded(f, cs);
    ReencodedChanges(Find(f, "changes").value.items);
    if KeysOf(f) == PAYLOAD_KEYS { PayloadFields(f); }
  }

  /** Encoding what a document decodes to gives the document back exactly when it is canonical. */
  lemma EncodeInvertsDecodeIffCanonical(d: Doc, tenant: Option<string>)
    requires Decode(d, tenant).Some?
    ensures Encode(Decode(d, tenant).value) == d <==> Canonical(d)
  {
    EncodedBackIffCanonical(d.fields, tenant, Decode(d, tenant).value);
  }

  // ---- The stored text ---------------------------------------------------------------------

  /** How the registries turn change sets into payload text and back; decoding is None where it raises. */
  datatype PayloadCodec = PayloadCodec(encode: ChangeSet -> string,
                                       decode: (string, Option<string>) -> Option<ChangeSet>)

  /** All that the registries rely on: encoded change sets decode, and what decodes was constructed. */
  ghost predicate Faithful(codec: PayloadCodec) {
    && (forall cs, tenant {:trigger codec.decode(codec.encode(cs), tenant)} ::
          Constructed(cs) && TenantAgrees(cs.metadata, tenant) ==>
          codec.decode(codec.encode(cs), tenant) == Some(cs))
    && (forall text, tenant :: codec.decode(text, tenant).Some? ==> Constructed(codec.decode(text, tenant).value))
  }

  /** _encode and _decode, over a JSON writer and reader. */
  function TextCodec(json: JsonCodec): PayloadCodec {
    PayloadCodec((cs: ChangeSet) => json.write(Encode(cs)),
                 (text: string, tenant: Option<string>) =>
                   if json.read(text).Some? then Decode(json.read(text).value, tenant) else None)
  }

  lemma EncodedChangeIsWellFormed(c: Change)
    requires ChangeOk(c)
    ensures WellFormed(EncodeChange(c))
  {
    var f := EncodeChange(c).fields;
    assert f[0].0[0] == 'r' && f[3].0[0] == 'd' && f[4].0[0] == 'c';
  }

  lemma EncodedIsWellFormed(cs: ChangeSet)
    requires Constructed(cs)
    ensures WellFormed(Encode(cs))
  {
    forall i | 0 <= i < |cs.changes| ensures WellFormed(EncodeChanges(cs.changes)[i]) {
      assert ChangeOk(cs.changes[i]);
      EncodedChangeIsWellFormed(cs.changes[i]);
    }
  }

  lemma TextCodecIsFaithful(json: JsonCodec)
    requires Lossless(json)
    ensures Faithful(TextCodec(json))
  {
    var codec := TextCodec(json);
    forall cs, tenant | Constructed(cs) && TenantAgrees(cs.metadata, tenant)
      ensures codec.decode(codec.encode(cs), tenant) == Some(cs)
    {
      EncodedIsWellFormed(cs);
      DecodeInvertsEncode(cs, tenant);
    }
    forall text, tenant | codec.decode(text, tenant).Some? ensures Constructed(codec.decode(text, tenant).value) {
      DecodedIsConstructed(json.read(text).value, tenant);
    }
  }

  /** Equal payload texts come from equal change sets. */
  lemma PayloadIsInjective(codec: PayloadCodec, a: ChangeSet, b: ChangeSet)
    requires Faithful(codec) && Constructed(a) && Constructed(b) && codec.encode(a) == codec.encode(b)
    ensures a == b
  {
    assert TenantAgrees(a.metadata, None) && TenantAgrees(b.metadata, None);
    assert codec.decode(codec.encode(a), None) == Some(a) && codec.decode(codec.encode(b), None) == Some(b);
  }

  /** Re-encoding what a stored text decodes to gives the same text exactly when its document is canonical
      and the text is what the writer makes of that document. So a stored payload passes its own
      compare-and-swap check when nobody touched it, unless it came from elsewhere: with keys missing, added
      or in another order, with the one status the constructor rewrites, or with other spacing or escapes. */
  lemma TextRoundTripsIffCanonical(json: JsonCodec, text: string, tenant: Option<string>)
    requires Lossless(json) && TextCodec(json).decode(text, tenant).Some?
    ensures var (codec, d) := (TextCodec(json), json.read(text).value);
            codec.encode(codec.decode(text, tenant).value) == text <==> Canonical(d) && json.write(d) == text
  {
    var d := json.read(text).value;
    var cs := Decode(d, tenant).value;
    DecodedIsConstructed(d, tenant);
    EncodedIsWellFormed(cs);
    EncodeInvertsDecodeIffCanonical(d, tenant);
  }

  // ---- Payloads that do not survive re-encoding ------------------------------------------------

  lemma EncodedKeysDiffer(cs: ChangeSet)
    ensures DistinctKeys(Encode(cs).fields)
  {
  }

  lemma SameFindsDecode(f: Dict, g: Dict, tenant: Option<string>)
    requires Find(f, "change_id") == Find(g, "change_id") && Find(f, "source_action_id") == Find(g, "source_action_id")
    requires Find(f, "status") == Find(g, "status") && Find(f, "requires_approval") == Find(g, "requires_approval")
    requires Find(f, "approved_by") == Find(g, "approved_by") && Find(f, "commit_message") == Find(g, "commit_message")
    requires Find(f, "changes") == Find(g, "changes") && Find(f, "metadata") == Find(g, "metadata")
    ensures Decode(DObj(f), tenant) == Decode(DObj(g), tenant)
  {
  }

  lemma DecodeIgnoresOrder(f: Dict, g: Dict, tenant: Option<string>)
    requires DistinctKeys(f) && DistinctKeys(g) && forall entry :: entry in f <==> entry in g
    ensures Decode(DObj(f), tenant) == Decode(DObj(g), tenant)
  {
    SameEntriesFind(f, g, "change_id");
    SameEntriesFind(f, g, "source_action_id");
    SameEntriesFind(f, g, "status");
    SameEntriesFind(f, g, "requires_approval");
    SameEntriesFind(f, g, "approved_by");
    SameEntriesFind(f, g, "commit_message");
    SameEntriesFind(f, g, "changes");
    SameEntriesFind(f, g, "metadata");
    SameFindsDecode(f, g, tenant);
  }

  /** The encoder's entries in another order decode to the same change set, which does not encode back to
      them. */
  lemma ReorderedPayloadIsRewritten(cs: ChangeSet, tenant: Option<string>, f: Dict)
    requires Constructed(cs) && TenantAgrees(cs.metadata, tenant)
    requires DistinctKeys(f) && (forall entry :: entry in f <==> entry in Encode(cs).fields) && f != Encode(cs).fields
    ensures Decode(DObj(f), tenant) == Some(cs) && Encode(cs) != DObj(f) && !Canonical(DObj(f))
  {
    EncodedKeysDiffer(cs);
    DecodeIgnoresOrder(f, Encode(cs).fields, tenant);
    DecodeInvertsEncode(cs, tenant);
    EncodeInvertsDecodeIffCanonical(DObj(f), tenant);
  }

  /** A payload whose status the constructor rewrites does not survive either... */
  lemma ProposedPayloadIsRewritten(cs: ChangeSet, tenant: Option<string>, f: Dict)
    requires Constructed(cs) && TenantAgrees(cs.metadata, tenant) && cs.requiresApproval && cs.status.PendingApproval?
    requires f == Encode(cs).fields[2 := ("status", DStr("proposed"))]
    ensures Decode(DObj(f), tenant) == Some(cs) && Encode(cs) != DObj(f) && !Canonical(DObj(f))
  {
    EncodedFields(cs);
    assert KeysOf(f) == PAYLOAD_KEYS;
    PayloadFields(f);
    PayloadFields(Encode(cs).fields);
    ChangesRoundTrip(cs.changes);
    DecodeLooksUp(f, cs, Proposed, tenant);
    EncodeInvertsDecodeIffCanonical(DObj(f), tenant);
  }

  lemma ShorterFinds(f: Dict, g: Dict)
    requires KeysOf(g) == PAYLOAD_KEYS && |g| == 8 && DistinctKeys(g) && f == g[..5] + g[6..]
    ensures Find(f, "change_id") == Find(g, "change_id") && Find(f, "source_action_id") == Find(g, "source_action_id")
    ensures Find(f, "status") == Find(g, "status") && Find(f, "requires_approval") == Find(g, "requires_approval")
    ensures Find(f, "approved_by") == Find(g, "approved_by") && Find(f, "commit_message").None?
    ensures Find(f, "changes") == Find(g, "changes") && Find(f, "metadata") == Find(g, "metadata")
  {
    assert g[5].0 == KeysOf(g)[5];
    PayloadKeysDiffer();
    WithoutEntry(g, 5, PAYLOAD_KEYS[0]);
    WithoutEntry(g, 5, PAYLOAD_KEYS[1]);
    WithoutEntry(g, 5, PAYLOAD_KEYS[2]);
    WithoutEntry(g, 5, PAYLOAD_KEYS[3]);
    WithoutEntry(g, 5, PAYLOAD_KEYS[4]);
    WithoutEntry(g, 5, PAYLOAD_KEYS[5]);
    WithoutEntry(g, 5, PAYLOAD_KEYS[6]);
    WithoutEntry(g, 5, PAYLOAD_KEYS[7]);
  }

  lemma MessageDefaults(f: Dict, cs: ChangeSet, tenant: Option<string>)
    requires Constructed(cs) && TenantAgrees(cs.metadata, tenant) && cs.commitMessage == ""
    requires Find(f, "change_id") == Some(DStr(cs.changeId))
    requires Find(f, "source_action_id") == Some(DStr(cs.sourceActionId))
    requires Find(f, "status") == Some(DStr(StatusText(cs.status)))
    requires Find(f, "requires_approval") == Some(DBool(cs.requiresApproval))
    requires Find(f, "approved_by") == Some(OptionalText(cs.approvedBy)) && Find(f, "commit_message").None?
    requires Find(f, "changes") == Some(DArr(EncodeChanges(cs.changes)))
    requires Find(f, "metadata") == Some(DObj(cs.metadata))
    ensures Decode(DObj(f), tenant) == Some(cs)
  {
    ChangesRoundTrip(cs.changes);
    DecodeLooksUp(f, cs, cs.status, tenant);
  }

  /** ...and neither does one that lacks an optional key. */
  lemma ShorterPayloadIsCompleted(cs: ChangeSet, tenant: Option<string>, f: Dict)
    requires Constructed(cs) && TenantAgrees(cs.metadata, tenant) && cs.commitMessage == ""
    requires f == Encode(cs).fields[..5] + Encode(cs).fields[6..]
    ensures Decode(DObj(f), tenant) == Some(cs) && Encode(cs) != DObj(f) && !Canonical(DObj(f))
  {
    EncodedKeysDiffer(cs);
    EncodedFields(cs);
    ShorterFinds(f, Encode(cs).fields);
    MessageDefaults(f, cs, tenant);
    assert |f| == 7;
  }

  /** And a text that differs from the written one in white space alone, which JSON readers ignore (section
      2 of RFC 8259), has a canonical document, decodes to the change set, and is not what it encodes to. */
  lemma SpacedPayloadIsRewritten(json: JsonCodec, cs: ChangeSet, tenant: Option<string>, text: string)
    requires Lossless(json) && Constructed(cs) && TenantAgrees(cs.metadata, tenant)
    requires text == " " + TextCodec(json).encode(cs) && json.read(text) == json.read(TextCodec(json).encode(cs))
    ensures TextCodec(json).decode(text, tenant) == Some(cs) && TextCodec(json).encode(cs) != text
    ensures Canonical(json.read(text).value)
  {
    EncodedIsWellFormed(cs);
    DecodeInvertsEncode(cs, tenant);
    EncodeInvertsDecodeIffCanonical(Encode(cs), tenant);
    assert |text| == |TextCodec(json).encode(cs)| + 1;
  }

  /** Documents that decode and are not canonical: one change that needs approval, stored as proposed, and
      the same with "changes" before "status". */
  lemma SomePayloadsAreNotCanonical() returns (proposed: Doc, reordered: Doc)
    ensures Decode(proposed, None).Some? && Encode(Decode(proposed, None).value) != proposed
    ensures Decode(reordered, None).Some? && Encode(Decode(reordered, None).value) != reordered
    ensures !Canonical(proposed) && !Canonical(reordered)
  {
    var change := Change("bucket", "b", "tags", DNull, DNull, "");
    var cs := ChangeSet("c", "a", [change], PendingApproval, true, None, "", []);
    assert !IsSpace("bucket"[0]) && !IsSpace("b"[0]) && !IsSpace("tags"[0]) && !IsSpace("c"[0]) && !IsSpace("a"[0]);
    assert ChangeOk(change);
    var g := Encode(cs).fields;
    var f := g[2 := g[6]][6 := g[2]];
    proposed, reordered := DObj(g[2 := ("status", DStr("proposed"))]), DObj(f);
    ProposedPayloadIsRewritten(cs, None, proposed.fields);
    EncodedKeysDiffer(cs);
    SwappedEntries(g, 2, 6);
    assert f[2] == g[6] != g[2];
    ReorderedPayloadIsRewritten(cs, None, f);
  }
}
