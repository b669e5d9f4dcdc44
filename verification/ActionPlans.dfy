/** Action plans and the managers that move them through their statuses in place. */
module ActionPlans {
  import opened Outcomes
  import opened Text
  import opened JsonValues

  datatype Status =
    | Planned | PendingApproval | Approved | Executing | Verifying | Succeeded | Failed
    | RollbackRequired | RolledBack | Cancelled | Rejected

  datatype Risk = Low | Medium | High | Critical

  /** ActionStatus.value. */
  function StatusText(s: Status): string {
    match s
    case Planned => "planned"
    case PendingApproval => "pending_approval"
    case Approved => "approved"
    case Executing => "executing"
    case Verifying => "verifying"
    case Succeeded => "succeeded"
    case Failed => "failed"
    case RollbackRequired => "rollback_required"
    case RolledBack => "rolled_back"
    case Cancelled => "cancelled"
    case Rejected => "rejected"
  }

  /** The parts of a plan that no transition changes. */
  datatype Proposal = Proposal(
    actionId: string, actionType: string, resourceType: string, resourceId: string,
    metadata: map<string, Json>, reason: string, risk: Risk, rollbackAvailable: bool, createdAt: Option<string>)

  datatype Plan = Plan(
    proposal: Proposal, requiresApproval: bool, status: Status,
    decisionBy: Option<string>, decisionReason: Option<string>)

  const ALLOWED_ACTIONS: set<string> := {
    "investigate_cpu_capacity", "review_cpu_utilization", "review_instance_state",
    "investigate_instance_status", "investigate_system_status", "verify_cloudwatch_cpu_monitoring",
    "verify_cloudwatch_network_monitoring", "review_bucket_usage", "review_large_object",
    "review_object_lifecycle", "review_small_object_optimization"}

  /** The operations of the plan endpoints. */
  datatype Op =
    | Evaluate
    | Approve(who: Option<string>)
    | Reject(who: Option<string>, reason: string)
    | Cancel(who: Option<string>)
    | Execute

  /** Where an operation takes a plan; None where it is refused and the plan stays as it was. */
  function Decide(p: Plan, op: Op): Option<Plan> {
    match op
    case Evaluate => Some(p.(requiresApproval := true, status := PendingApproval))
    case Approve(who) =>
      if p.status.PendingApproval? then Some(p.(status := Approved, decisionBy := who, decisionReason := None))
      else None
    case Reject(who, reason) =>
      if p.status.PendingApproval? && who.Some? && !Blank(who.value) && !Blank(reason) then
        Some(p.(status := Rejected, decisionBy := Some(Strip(who.value)), decisionReason := Some(Strip(reason))))
      else None
    case Cancel(who) =>
      if p.status.PendingApproval? then
        Some(p.(status := Cancelled, decisionReason := None,
                decisionBy := if who.Some? && who.value != "" then Some(Strip(who.value)) else None))
      else None
    case Execute =>
      if p.status.Approved? && p.proposal.actionType in ALLOWED_ACTIONS then Some(p.(status := Succeeded)) else None
  }

  /** When an operation is admitted. */
  predicate Admitted(p: Plan, op: Op) {
    && (op.Approve? || op.Reject? || op.Cancel? ==> p.status.PendingApproval?)
    && (op.Reject? ==> op.who.Some? && !Blank(op.who.value) && !Blank(op.reason))
    && (op.Execute? ==> p.status.Approved? && p.proposal.actionType in ALLOWED_ACTIONS)
  }

  /** What an admitted operation leaves of each field. */
  predicate DecidedAs(p: Plan, op: Op, after: Plan) {
    && after.proposal == p.proposal
    && after.requiresApproval == (p.requiresApproval || op.Evaluate?)
    && (match op
        case Evaluate => after.status.PendingApproval?
        case Approve(_) => after.status.Approved?
        case Reject(_, _) => after.status.Rejected?
        case Cancel(_) => after.status.Cancelled?
        case Execute => after.status.Succeeded?)
    && (op.Evaluate? || op.Execute? ==>
          after.decisionBy == p.decisionBy && after.decisionReason == p.decisionReason)
    && (op.Approve? ==> after.decisionBy == op.who && after.decisionReason.None?)
    && (op.Reject? ==>
          && op.who.Some? && after.decisionBy == Some(Strip(op.who.value))
          && after.decisionReason == Some(Strip(op.reason)))
    && (op.Cancel? ==>
          && after.decisionReason.None?
          && (op.who.None? || op.who.value == "" ==> after.decisionBy.None?)
          && (op.who.Some? && op.who.value != "" ==> after.decisionBy == Some(Strip(op.who.value))))
  }

  /** Each operation succeeds exactly when it is admitted, and records who decided and why. */
  lemma DecisionsAreRecorded(p: Plan, op: Op)
    ensures Decide(p, op).Some? <==> Admitted(p, op)
    ensures forall after :: Decide(p, op) == Some(after) <==> Admitted(p, op) && DecidedAs(p, op, after)
  {
    forall after | Admitted(p, op) && DecidedAs(p, op, after) ensures Decide(p, op) == Some(after) {
      assert after == Plan(p.proposal, after.requiresApproval, after.status, after.decisionBy, after.decisionReason);
    }
  }

  /** No decision touches the proposal; only evaluation changes what needs approval; evaluating and
      executing keep the recorded decision; and a rejection always names who decided and why. */
  lemma DecisionsAreAttributed(p: Plan, op: Op)
    requires Decide(p, op).Some?
    ensures var after := Decide(p, op).value;
            && after.proposal == p.proposal
            && (!op.Evaluate? ==> after.requiresApproval == p.requiresApproval)
            && (op.Evaluate? || op.Execute? ==>
                  (after.decisionBy, after.decisionReason) == (p.decisionBy, p.decisionReason))
            && (after.status.Rejected? ==>
                  && after.decisionBy.Some? && after.decisionBy.value != "" && Trimmed(after.decisionBy.value)
                  && after.decisionReason.Some? && after.decisionReason.value != ""
                  && Trimmed(after.decisionReason.value))
  {
    if op.Reject? {
      StripFacts(op.who.value);
      StripFacts(op.reason);
    }
  }

  /** ExecutionResult, as far as the verifier reads it. */
  datatype ExecutionResult = ExecutionResult(actionId: string, status: Status, successful: bool)

  /** The mutable plan object the managers and endpoints share. */
  class ActionPlan {
    const proposal: Proposal
    var requiresApproval: bool
    var status: Status
    var decisionBy: Option<string>
    var decisionReason: Option<string>

    constructor (p: Plan)
      ensures View() == p
    {
      proposal, requiresApproval, status := p.proposal, p.requiresApproval, p.status;
      decisionBy, decisionReason := p.decisionBy, p.decisionReason;
    }

    function View(): Plan
      reads this
    {
      Plan(proposal, requiresApproval, status, decisionBy, decisionReason)
    }

    /** Puts back a status and a decision, as the endpoints do when persisting fails. */
    method Restore(p: Plan)
      requires p.proposal == proposal
      modifies this
      ensures View() == p
    {
      requiresApproval, status, decisionBy, decisionReason :=
        p.requiresApproval, p.status, p.decisionBy, p.decisionReason;
    }
  }

  /** PolicyEngine.evaluate: every risk level leads back to pending approval. */
  method EvaluatePolicy(action: ActionPlan)
    modifies action
    ensures Decide(old(action.View()), Evaluate) == Some(action.View())
    ensures action.View() == old(action.View()).(status := PendingApproval, requiresApproval := true)
  {
    if action.proposal.risk == Critical {
      action.requiresApproval, action.status := true, PendingApproval;
      return;
    }
    if action.proposal.risk == High {
      action.requiresApproval, action.status := true, PendingApproval;
      return;
    }
    if action.proposal.risk == Medium {
      action.requiresApproval, action.status := true, PendingApproval;
      return;
    }
    action.requiresApproval, action.status := true, PendingApproval;
  }

  method ApprovePlan(action: ActionPlan, who: Option<string>) returns (ok: bool)
    modifies action
    ensures ok <==> Decide(old(action.View()), Approve(who)).Some?
    ensures action.View() == if ok then Decide(old(action.View()), Approve(who)).value else old(action.View())
    ensures ok <==> old(action.status).PendingApproval?
    ensures ok ==> action.status.Approved? && action.decisionBy == who && action.decisionReason.None?
  {
    if action.status != PendingApproval { return false; }
    action.status, action.decisionBy, action.decisionReason := Approved, who, None;
    ok := true;
  }

  method RejectPlan(action: ActionPlan, who: Option<string>, reason: string) returns (ok: bool)
    modifies action
    ensures ok <==> Decide(old(action.View()), Reject(who, reason)).Some?
    ensures action.View() == if ok then Decide(old(action.View()), Reject(who, reason)).value else old(action.View())
    ensures ok <==> old(action.status).PendingApproval? && who.Some? && !Blank(who.value) && !Blank(reason)
    ensures ok ==> action.status.Rejected? && action.decisionBy == Some(Strip(who.value))
    ensures ok ==> action.decisionReason == Some(Strip(reason))
  {
    if action.status != PendingApproval { return false; }
    if who.None? || Blank(who.value) { return false; }
    if Blank(reason) { return false; }
    action.status, action.decisionBy := Rejected, Some(Strip(who.value));
    action.decisionReason := Some(Strip(reason));
    ok := true;
  }

  method CancelPlan(action: ActionPlan, who: Option<string>) returns (ok: bool)
    modifies action
    ensures ok <==> Decide(old(action.View()), Cancel(who)).Some?
    ensures action.View() == if ok then Decide(old(action.View()), Cancel(who)).value else old(action.View())
    ensures ok <==> old(action.status).PendingApproval?
    ensures ok ==> action.status.Cancelled? && action.decisionReason.None?
    ensures ok && (who.None? || who.value == "") ==> action.decisionBy.None?
    ensures ok && who.Some? && who.value != "" ==> action.decisionBy == Some(Strip(who.value))
  {
    if action.status != PendingApproval { return false; }
    action.status := Cancelled;
    action.decisionBy := if who.Some? && who.value != "" then Some(Strip(who.value)) else None;
    action.decisionReason := None;
    ok := true;
  }

  datatype ExecutionError = NotApproved | NotAllowlisted | RealExecutionDisabled

  /** ActionExecutor.execute: only approved, allowlisted, dry runs. */
  method ExecutePlan(action: ActionPlan, dryRun: bool) returns (r: Result<ExecutionResult, ExecutionError>)
    modifies action
    ensures r.Ok? <==> old(action.status).Approved? && action.proposal.actionType in ALLOWED_ACTIONS && dryRun
    ensures r.Ok? ==> r.value == ExecutionResult(action.proposal.actionId, Executing, true)
    ensures action.View() == if r.Ok? then old(action.View()).(status := Executing) else old(action.View())
  {
    if action.status != Approved { return Err(NotApproved); }
    if action.proposal.actionType !in ALLOWED_ACTIONS { return Err(NotAllowlisted); }
    if !dryRun { return Err(RealExecutionDisabled); }
    action.status := Executing;
    r := Ok(ExecutionResult(action.proposal.actionId, action.status, true));
  }

  datatype VerificationError = NotExecuting | WrongAction | ResultNotExecuting

  /** ActionVerifier.verify. */
  method VerifyPlan(action: ActionPlan, result: ExecutionResult) returns (r: Result<(), VerificationError>)
    modifies action
    ensures r.Ok? <==>
              old(action.status).Executing? && result.actionId == action.proposal.actionId && result.status.Executing?
    ensures action.View() ==
              if r.Ok? then old(action.View()).(status := if result.successful then Succeeded else RollbackRequired)
              else old(action.View())
  {
    if action.status != Executing { return Err(NotExecuting); }
    if result.actionId != action.proposal.actionId { return Err(WrongAction); }
    if result.status != Executing { return Err(ResultNotExecuting); }
    action.status := if result.successful then Succeeded else RollbackRequired;
    r := Ok(());
  }

  /** The in-place work of one endpoint, between reading the plan and persisting it. */
  method Perform(action: ActionPlan, op: Op) returns (ok: bool)
    modifies action
    ensures ok <==> Decide(old(action.View()), op).Some?
    ensures action.View() == if ok then Decide(old(action.View()), op).value else old(action.View())
  {
    match op {
      case Evaluate =>
        EvaluatePolicy(action);
        ok := true;
      case Approve(who) => ok := ApprovePlan(action, who);
      case Reject(who, reason) => ok := RejectPlan(action, who, reason);
      case Cancel(who) => ok := CancelPlan(action, who);
      case Execute =>
        var result := ExecutePlan(action, true);
        if result.Err? { return false; }
        var verified := VerifyPlan(action, result.value);
        ok := true;
    }
  }
}
