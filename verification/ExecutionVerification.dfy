/** The bridge that executes an approved plan, verifies it and audits both, under injected failures. */
module ExecutionVerification {
  import opened Outcomes
  import opened Text
  import opened JsonValues
  import opened AuditChain
  import opened AuditTrails
  import opened ActionPlans

  /** What an executor leaves on the plan and returns; None where it raises or returns no result. */
  datatype Execution = Execution(left: Status, returned: Option<ExecutionResult>)

  /** What an execution hook leaves on the plan, and whether it then raises. */
  datatype Hook = Hook(left: Status, raises: bool)

  /** What a verifier does besides: it raises, returns nothing that has a status, or returns a plan. */
  datatype Answer = Fails | NoPlan | Reports(status: Status)

  /** What a verifier leaves on the plan, and its answer. */
  datatype Verification = Verification(left: Status, answer: Answer)

  /** Everything execute_and_verify is handed or meets from outside. No executor means ActionExecutor
      and no verifier means ActionVerifier; the audit store refuses the events named in `refused`, and
      `readable` says whether it can be read at the end. */
  datatype Outside = Outside(
    dryRun: bool, executor: Option<Execution>, hook: Option<Hook>, verifier: Option<Verification>, refused: set<string>,
    readable: bool, details: string -> map<string, Json>, stamp: string, actor: Option<string>)

  function LifecycleEvent(p: Proposal, o: Outside, name: string, oldStatus: Status, newStatus: Status): AuditEvent {
    AuditEvent(p.actionId, p.actionType, p.resourceType, p.resourceId, StatusText(oldStatus), StatusText(newStatus),
               name, o.stamp, o.details(name), o.actor)
  }

  /** Every event of the bridge names the plan, the two statuses, the stage and the principal. */
  lemma LifecycleEventSays(p: Proposal, o: Outside, name: string, oldStatus: Status, newStatus: Status)
    ensures var e := LifecycleEvent(p, o, name, oldStatus, newStatus);
            && e.actionId == p.actionId && e.actionType == p.actionType
            && e.resourceType == p.resourceType && e.resourceId == p.resourceId
            && e.oldStatus == StatusText(oldStatus) && e.newStatus == StatusText(newStatus)
            && e.event == name && e.actorId == o.actor && e.timestamp == o.stamp && e.details == o.details(name)
  {
  }

  predicate Recorded(env: Env, o: Outside, e: AuditEvent) {
    e.event !in o.refused && Recordable(env, e)
  }

  function IfRecorded(env: Env, o: Outside, e: AuditEvent): seq<AuditEvent> {
    if Recorded(env, o, e) then [e] else []
  }

  predicate Identified(p: Proposal) {
    !Blank(p.actionId) && !Blank(p.actionType) && !Blank(p.resourceType) && !Blank(p.resourceId)
  }

  // ---- The lifecycle as a function -----------------------------------------------------

  datatype Ending = Raised | Completed(verified: bool)

  /** The plan's last status, the events it added to the trail, and how the call ended. */
  datatype Lifecycle = Lifecycle(status: Status, events: seq<AuditEvent>, ending: Ending)

  function RecoveryStatus(p: Proposal, status: Status): Status {
    if status in {Executing, Succeeded, Failed} then (if p.rollbackAvailable then RollbackRequired else Failed)
    else status
  }

  /** _record_verification_failure. */
  function Recovered(env: Env, o: Outside, p: Proposal, status: Status, oldStatus: Status, name: string): Lifecycle {
    Lifecycle(RecoveryStatus(p, status),
              if status in {Executing, Succeeded, Failed}
              then IfRecorded(env, o, LifecycleEvent(p, o, name, oldStatus, RecoveryStatus(p, status)))
              else [],
              Raised)
  }

  /** What verification does to a plan in `status`. */
  function VerifierOutcome(p: Proposal, o: Outside, status: Status, result: ExecutionResult): Verification {
    if o.verifier.Some? then o.verifier.value
    else if status.Executing? && result.actionId == p.actionId && result.status.Executing? then
      var after := if result.successful then Succeeded else RollbackRequired;
      Verification(after, Reports(after))
    else Verification(status, Fails)
  }

  function CompletionEvent(p: Proposal, o: Outside, oldStatus: Status, verified: Status): AuditEvent {
    LifecycleEvent(p, o, "action_verification_completed", oldStatus, verified)
  }

  /** The verifier has left the plan in `left` and returned one in `verified`. The last read of the trail
      is under no handler. */
  function Concluded(env: Env, o: Outside, p: Proposal, left: Status, oldStatus: Status, verified: Status): Lifecycle {
    var e := CompletionEvent(p, o, oldStatus, verified);
    if Recorded(env, o, e) then Lifecycle(left, [e], if o.readable then Completed(verified.Succeeded?) else Raised)
    else Recovered(env, o, p, left, verified, "action_verification_audit_failed")
  }

  /** Verification and its audit event, from a plan in `status`. A missing plan is met under no handler. */
  function Verified(env: Env, o: Outside, p: Proposal, status: Status, oldStatus: Status,
                    result: ExecutionResult): Lifecycle
  {
    var v := VerifierOutcome(p, o, status, result);
    match v.answer
    case Fails => Recovered(env, o, p, v.left, oldStatus, "action_verification_failed")
    case NoPlan => Lifecycle(v.left, [], Raised)
    case Reports(verified) => Concluded(env, o, p, v.left, oldStatus, verified)
  }

  function AfterHook(o: Outside, left: Status): Status {
    if o.hook.Some? then o.hook.value.left else left
  }

  predicate HookRaises(o: Outside) {
    o.hook.Some? && o.hook.value.raises
  }

  /** From the moment the execution is audited: the hook, then verification. */
  function Continued(env: Env, o: Outside, p: Proposal, left: Status, result: ExecutionResult): Lifecycle {
    if HookRaises(o) then Recovered(env, o, p, AfterHook(o, left), left, "action_execution_hook_failed")
    else Verified(env, o, p, AfterHook(o, left), left, result)
  }

  function ExecutionEvent(p: Proposal, o: Outside, left: Status): AuditEvent {
    LifecycleEvent(p, o, "action_execution_completed", Approved, left)
  }

  /** From the moment the executor has returned a result for this plan. */
  function Finished(env: Env, o: Outside, p: Proposal, left: Status, result: ExecutionResult): Lifecycle {
    var e := ExecutionEvent(p, o, left);
    if !Recorded(env, o, e) then Recovered(env, o, p, left, left, "action_execution_audit_failed")
    else
      var rest := Continued(env, o, p, left, result);
      rest.(events := [e] + rest.events)
  }

  /** What the executor does to an approved plan. */
  function Executed(p: Proposal, o: Outside): Execution {
    if o.executor.Some? then o.executor.value
    else if p.actionType in ALLOWED_ACTIONS && o.dryRun then
      Execution(Executing, Some(ExecutionResult(p.actionId, Executing, true)))
    else Execution(Approved, None)
  }

  /** The executor returned a result, and it names this plan. */
  predicate Accepted(p: Proposal, x: Execution) {
    x.returned.Some? && x.returned.value.actionId == p.actionId
  }

  function Attempt(env: Env, o: Outside, p: Proposal, status: Status): Lifecycle {
    if !Identified(p) || !status.Approved? then Lifecycle(status, [], Raised)
    else
      var x := Executed(p, o);
      if !Accepted(p, x) then Lifecycle(x.left, [], Raised) else Finished(env, o, p, x.left, x.returned.value)
  }

  lemma Prepended(before: seq<AuditEvent>, e: AuditEvent, rest: seq<AuditEvent>)
    ensures before + [e] + rest == before + ([e] + rest)
  {
  }

  // ---- The bridge ------------------------------------------------------------------------

  class ExecutionVerificationBridge {
    const trail: AuditTrail

    constructor (trail: AuditTrail)
      ensures this.trail == trail
    {
      this.trail := trail;
    }

    /** One append, by a store that refuses some events. */
    method Append(o: Outside, e: AuditEvent) returns (ok: bool)
      requires trail.Intact()
      modifies trail
      ensures trail.Intact()
      ensures ok <==> Recorded(trail.env, o, e)
      ensures trail.events == old(trail.events) + IfRecorded(trail.env, o, e)
    {
      if e.event in o.refused { return false; }
      var r := trail.Record(e);
      ok := r.Ok?;
    }

    /** Its own audit failure is swallowed. */
    method RecordVerificationFailure(action: ActionPlan, o: Outside, oldStatus: Status, name: string)
      requires trail.Intact()
      modifies action, trail
      ensures trail.Intact() && action.View() == old(action.View()).(status := action.status)
      ensures var r := Recovered(trail.env, o, action.proposal, old(action.status), oldStatus, name);
              action.status == r.status && trail.events == old(trail.events) + r.events
      ensures old(action.status) !in {Executing, Succeeded, Failed} ==>
                action.status == old(action.status) && trail.events == old(trail.events)
      ensures old(action.status) in {Executing, Succeeded, Failed} ==>
                && action.status == (if action.proposal.rollbackAvailable then RollbackRequired else Failed)
                && (trail.events == old(trail.events)
                    || trail.events == old(trail.events)
                                       + [LifecycleEvent(action.proposal, o, name, oldStatus, action.status)])
    {
      if action.status !in {Executing, Succeeded, Failed} { return; }
      action.status := if action.proposal.rollbackAvailable then RollbackRequired else Failed;
      var ok := Append(o, LifecycleEvent(action.proposal, o, name, oldStatus, action.status));
    }

    /** The verification half, shared by execute_and_verify and verify. */
    method VerifyAndRecord(action: ActionPlan, result: ExecutionResult, o: Outside,
                           oldStatus: Status) returns (ending: Ending)
      requires trail.Intact()
      modifies action, trail
      ensures trail.Intact() && action.View() == old(action.View()).(status := action.status)
      ensures var r := Verified(trail.env, o, action.proposal, old(action.status), oldStatus, result);
              action.status == r.status && trail.events == old(trail.events) + r.events && ending == r.ending
    {
      var answer := CallVerifier(action, result, o);
      match answer {
        case Fails =>
          RecordVerificationFailure(action, o, oldStatus, "action_verification_failed");
          ending := Raised;
        case NoPlan => ending := Raised;
        case Reports(verified) => ending := AuditVerdict(action, verified, o, oldStatus);
      }
    }

    method AuditVerdict(action: ActionPlan, verified: Status, o: Outside, oldStatus: Status) returns (ending: Ending)
      requires trail.Intact()
      modifies action, trail
      ensures trail.Intact() && action.View() == old(action.View()).(status := action.status)
      ensures var r := Concluded(trail.env, o, action.proposal, old(action.status), oldStatus, verified);
              action.status == r.status && trail.events == old(trail.events) + r.events && ending == r.ending
    {
      var ok := Append(o, CompletionEvent(action.proposal, o, oldStatus, verified));
      if !ok {
        assert trail.events == old(trail.events) && action.View() == old(action.View());
        RecordVerificationFailure(action, o, verified, "action_verification_audit_failed");
        return Raised;
      }
      ending := if o.readable then Completed(verified.Succeeded?) else Raised;
    }

    /** verifier.verify. */
    method CallVerifier(action: ActionPlan, result: ExecutionResult, o: Outside) returns (answer: Answer)
      modifies action
      ensures action.View() == old(action.View()).(status := action.status)
      ensures Verification(action.status, answer) == VerifierOutcome(action.proposal, o, old(action.status), result)
    {
      if o.verifier.Some? {
        action.status := o.verifier.value.left;
        return o.verifier.value.answer;
      }
      var verdict := VerifyPlan(action, result);
      answer := if verdict.Ok? then Reports(action.status) else Fails;
    }

    /** executor.execute on an approved plan: its result; None where it raises. */
    method CallExecutor(action: ActionPlan, o: Outside) returns (result: Option<ExecutionResult>)
      requires action.status.Approved?
      modifies action
      ensures action.View() == old(action.View()).(status := action.status)
      ensures Execution(action.status, result) == Executed(action.proposal, o)
    {
      if o.executor.Some? {
        action.status := o.executor.value.left;
        return o.executor.value.returned;
      }
      var executed := ExecutePlan(action, o.dryRun);
      result := if executed.Ok? then Some(executed.value) else None;
    }

    method ExecuteAndVerify(action: ActionPlan, o: Outside) returns (ending: Ending)
      requires trail.Intact()
      modifies action, trail
      ensures trail.Intact() && action.View() == old(action.View()).(status := action.status)
      ensures Blank(action.proposal.actionId) || Blank(action.proposal.actionType)
              || Blank(action.proposal.resourceType) || Blank(action.proposal.resourceId)
              || !old(action.status).Approved? ==>
                ending.Raised? && action.status == old(action.status) && trail.events == old(trail.events)
      ensures var r := Attempt(trail.env, o, action.proposal, old(action.status));
              action.status == r.status && trail.events == old(trail.events) + r.events && ending == r.ending
    {
      var p := action.proposal;
      if Blank(p.actionId) || Blank(p.actionType) || Blank(p.resourceType) || Blank(p.resourceId) { return Raised; }
      if action.status != Approved { return Raised; }
      var result := CallExecutor(action, o);
      if result.None? { return Raised; }
      if result.value.actionId != p.actionId { return Raised; }
      ending := AuditAndVerify(action, result.value, o);
    }

    /** execute_and_verify, once the executor has returned a result for this plan. */
    method AuditAndVerify(action: ActionPlan, result: ExecutionResult, o: Outside) returns (ending: Ending)
      requires trail.Intact()
      modifies action, trail
      ensures trail.Intact() && action.View() == old(action.View()).(status := action.status)
      ensures var r := Finished(trail.env, o, action.proposal, old(action.status), result);
              action.status == r.status && trail.events == old(trail.events) + r.events && ending == r.ending
    {
      var executing := action.status;
      var e := ExecutionEvent(action.proposal, o, executing);
      var ok := Append(o, e);
      if !ok {
        assert trail.events == old(trail.events) && action.View() == old(action.View());
        RecordVerificationFailure(action, o, executing, "action_execution_audit_failed");
        return Raised;
      }
      ending := HookAndVerify(action, result, o);
      Prepended(old(trail.events), e, Continued(trail.env, o, action.proposal, executing, result).events);
    }

    method HookAndVerify(action: ActionPlan, result: ExecutionResult, o: Outside) returns (ending: Ending)
      requires trail.Intact()
      modifies action, trail
      ensures trail.Intact() && action.View() == old(action.View()).(status := action.status)
      ensures var r := Continued(trail.env, o, action.proposal, old(action.status), result);
              action.status == r.status && trail.events == old(trail.events) + r.events && ending == r.ending
    {
      var executing := action.status;
      if o.hook.Some? {
        action.status := o.hook.value.left;
        if o.hook.value.raises {
          RecordVerificationFailure(action, o, executing, "action_execution_hook_failed");
          return Raised;
        }
      }
      ending := VerifyAndRecord(action, result, o, executing);
    }

    /** verify: for an execution that was completed elsewhere. */
    method Verify(action: ActionPlan, result: ExecutionResult, o: Outside) returns (ending: Ending)
      requires trail.Intact()
      modifies action, trail
      ensures trail.Intact() && action.View() == old(action.View()).(status := action.status)
      ensures Blank(action.proposal.actionId) || Blank(action.proposal.actionType)
              || Blank(action.proposal.resourceType) || Blank(action.proposal.resourceId)
              || result.actionId != action.proposal.actionId ==>
                ending.Raised? && action.status == old(action.status) && trail.events == old(trail.events)
      ensures var (p, status) := (action.proposal, old(action.status));
              var r := if Identified(p) && result.actionId == p.actionId
                       then Verified(trail.env, o, p, status, status, result) else Lifecycle(status, [], Raised);
              action.status == r.status && trail.events == old(trail.events) + r.events && ending == r.ending
    {
      var p := action.proposal;
      if Blank(p.actionId) || Blank(p.actionType) || Blank(p.resourceType) || Blank(p.resourceId) { return Raised; }
      if result.actionId != p.actionId { return Raised; }
      ending := VerifyAndRecord(action, result, o, action.status);
    }
  }

  // ---- No stuck execution ------------------------------------------------------------------

  predicate Settled(status: Status) {
    status in {Succeeded, Failed, RollbackRequired}
  }

  /** `r` settles a plan last seen in `seen`, and calls it failed only where there is no rollback. */
  predicate Settles(p: Proposal, seen: Status, r: Lifecycle) {
    && !r.status.Executing? && !r.status.Succeeded? && r.ending.Raised?
    && (Settled(r.status) <==> Settled(seen) || seen.Executing?)
    && (r.status.Failed? ==> !p.rollbackAvailable)
  }

  lemma RecoverySettles(env: Env, o: Outside, p: Proposal, status: Status, oldStatus: Status, name: string)
    ensures Settles(p, status, Recovered(env, o, p, status, oldStatus, name))
  {
  }

  /** The lifecycle gets as far as calling the verifier. */
  predicate ReachesVerifier(env: Env, o: Outside, p: Proposal, x: Execution) {
    Accepted(p, x) && Recorded(env, o, ExecutionEvent(p, o, x.left)) && !HookRaises(o)
  }

  function Verdict(p: Proposal, o: Outside, x: Execution): Verification
    requires Accepted(p, x)
  {
    VerifierOutcome(p, o, AfterHook(o, x.left), x.returned.value)
  }

  /** The verifier was reached and returned no plan. */
  predicate MissesPlan(env: Env, o: Outside, p: Proposal, x: Execution) {
    ReachesVerifier(env, o, p, x) && Verdict(p, o, x).answer.NoPlan?
  }

  /** The verifier was reached and returned a plan, and both events were recorded. */
  predicate BothRecorded(env: Env, o: Outside, p: Proposal, x: Execution) {
    && ReachesVerifier(env, o, p, x)
    && Verdict(p, o, x).answer.Reports?
    && Recorded(env, o, CompletionEvent(p, o, x.left, Verdict(p, o, x).answer.status))
  }

  /** The status in which a failure handler finds the plan. */
  function LastSeen(env: Env, o: Outside, p: Proposal, x: Execution): Status
    requires Accepted(p, x)
  {
    if ReachesVerifier(env, o, p, x) then Verdict(p, o, x).left
    else if Recorded(env, o, ExecutionEvent(p, o, x.left)) then AfterHook(o, x.left)
    else x.left
  }

  lemma HandledSettles(env: Env, o: Outside, p: Proposal, x: Execution)
    requires Accepted(p, x) && !BothRecorded(env, o, p, x) && !MissesPlan(env, o, p, x)
    ensures Settles(p, LastSeen(env, o, p, x), Finished(env, o, p, x.left, x.returned.value))
  {
    var seen := LastSeen(env, o, p, x);
    if !Recorded(env, o, ExecutionEvent(p, o, x.left)) {
      RecoverySettles(env, o, p, seen, x.left, "action_execution_audit_failed");
    } else if HookRaises(o) {
      RecoverySettles(env, o, p, seen, x.left, "action_execution_hook_failed");
    } else {
      RecoverySettles(env, o, p, seen, x.left, "action_verification_failed");
      if Verdict(p, o, x).answer.Reports? {
        RecoverySettles(env, o, p, seen, Verdict(p, o, x).answer.status, "action_verification_audit_failed");
      }
    }
  }

  /** The stage in which a handled failure happened, and the status it was recorded to start from. */
  predicate FailedStage(env: Env, o: Outside, p: Proposal, x: Execution, name: string, oldStatus: Status)
    requires Accepted(p, x)
  {
    var audited := Recorded(env, o, LifecycleEvent(p, o, "action_execution_completed", Approved, x.left));
    var answer := Verdict(p, o, x).answer;
    || (name == "action_execution_audit_failed" && oldStatus == x.left && !audited)
    || (name == "action_execution_hook_failed" && oldStatus == x.left && audited && HookRaises(o))
    || (name == "action_verification_failed" && oldStatus == x.left && audited && !HookRaises(o) && answer.Fails?)
    || (name == "action_verification_audit_failed" && audited && !HookRaises(o) && answer == Reports(oldStatus)
        && !Recorded(env, o, LifecycleEvent(p, o, "action_verification_completed", x.left, oldStatus)))
  }

  /** The events a handled failure leaves: the execution's if it was recorded, and then, for a plan found
      executing or settled, one that names the failed stage and the recovery status, if that can be recorded. */
  ghost predicate TellsFailure(env: Env, o: Outside, p: Proposal, x: Execution, name: string, oldStatus: Status,
                               r: Lifecycle)
    requires Accepted(p, x)
  {
    var execution := LifecycleEvent(p, o, "action_execution_completed", Approved, x.left);
    var recovery := LifecycleEvent(p, o, name, oldStatus, if p.rollbackAvailable then RollbackRequired else Failed);
    var first := if Recorded(env, o, execution) then [execution] else [];
    var found := LastSeen(env, o, p, x) in {Executing, Succeeded, Failed};
    r.events == first + (if found && Recorded(env, o, recovery) then [recovery] else [])
  }

  /** Each handled failure belongs to one stage, and the events name it. */
  lemma FailuresAreTold(env: Env, o: Outside, p: Proposal) returns (name: string, oldStatus: Status)
    requires Identified(p) && Accepted(p, Executed(p, o))
    requires var x := Executed(p, o); !BothRecorded(env, o, p, x) && !MissesPlan(env, o, p, x)
    ensures FailedStage(env, o, p, Executed(p, o), name, oldStatus)
    ensures TellsFailure(env, o, p, Executed(p, o), name, oldStatus, Attempt(env, o, p, Approved))
  {
    var x := Executed(p, o);
    if !Recorded(env, o, ExecutionEvent(p, o, x.left)) {
      name, oldStatus := "action_execution_audit_failed", x.left;
    } else if HookRaises(o) {
      name, oldStatus := "action_execution_hook_failed", x.left;
    } else if Verdict(p, o, x).answer.Fails? {
      name, oldStatus := "action_verification_failed", x.left;
    } else {
      name, oldStatus := "action_verification_audit_failed", Verdict(p, o, x).answer.status;
    }
  }

  lemma UnhandledLifecycle(env: Env, o: Outside, p: Proposal, x: Execution)
    requires Accepted(p, x)
    ensures var r := Finished(env, o, p, x.left, x.returned.value);
            && (MissesPlan(env, o, p, x) ==>
                  r == Lifecycle(Verdict(p, o, x).left, [ExecutionEvent(p, o, x.left)], Raised))
            && (BothRecorded(env, o, p, x) ==>
                  var v := Verdict(p, o, x);
                  r == Lifecycle(v.left, [ExecutionEvent(p, o, x.left), CompletionEvent(p, o, x.left, v.answer.status)],
                                 if o.readable then Completed(v.answer.status.Succeeded?) else Raised))
  {
  }

  /** Whatever is injected and whatever fails, an attempted plan is left EXECUTING exactly when the
      executor left it so and returned no result or one for another plan, or when an injected verifier left
      it so and returned no plan, or one with which both events were recorded. */
  lemma NeverStuck(env: Env, o: Outside, p: Proposal)
    requires Identified(p)
    ensures var (x, r) := (Executed(p, o), Attempt(env, o, p, Approved));
            r.status.Executing? <==>
              || (x.left.Executing? && !Accepted(p, x))
              || (&& o.verifier.Some? && o.verifier.value.left.Executing?
                  && (MissesPlan(env, o, p, x) || BothRecorded(env, o, p, x)))
  {
    var x := Executed(p, o);
    if Accepted(p, x) {
      UnhandledLifecycle(env, o, p, x);
      if !MissesPlan(env, o, p, x) && !BothRecorded(env, o, p, x) { HandledSettles(env, o, p, x); }
    }
  }

  /** Every other call with an accepted result settles the plan if it last saw it executing or settled, raises,
      and fails only plans without a rollback. The two exits under no handler leave the plan as the verifier
      left it: a missing plan, with only the execution audited, and a failing last read, with both events. */
  lemma FailuresSettle(env: Env, o: Outside, p: Proposal)
    requires Identified(p) && Accepted(p, Executed(p, o))
    ensures var (x, r) := (Executed(p, o), Attempt(env, o, p, Approved));
            if MissesPlan(env, o, p, x) then
              r == Lifecycle(Verdict(p, o, x).left, [ExecutionEvent(p, o, x.left)], Raised)
            else if BothRecorded(env, o, p, x) then
              r.status == Verdict(p, o, x).left && (r.ending.Raised? <==> !o.readable)
            else Settles(p, LastSeen(env, o, p, x), r)
  {
    var x := Executed(p, o);
    UnhandledLifecycle(env, o, p, x);
    if !MissesPlan(env, o, p, x) && !BothRecorded(env, o, p, x) { HandledSettles(env, o, p, x); }
  }

  /** The call returns exactly when both events were recorded and the trail could be read; it then added
      these two and nothing else. After an accepted result SUCCEEDED is only ever left with both events
      recorded, or by a verifier that returned no plan. For a verifier that reports the plan it leaves, as
      ActionVerifier does, it is left exactly when both were recorded and it reported success, and the call
      then returns verified unless the last read fails. */
  lemma SuccessIsAudited(env: Env, o: Outside, p: Proposal)
    requires Identified(p) && Accepted(p, Executed(p, o))
    ensures var (x, r) := (Executed(p, o), Attempt(env, o, p, Approved));
            && (r.ending.Completed? <==> BothRecorded(env, o, p, x) && o.readable)
            && (BothRecorded(env, o, p, x) ==>
                  r.events == [LifecycleEvent(p, o, "action_execution_completed", Approved, x.left),
                               LifecycleEvent(p, o, "action_verification_completed", x.left,
                                              Verdict(p, o, x).answer.status)])
            && (r.status.Succeeded? ==> BothRecorded(env, o, p, x) || MissesPlan(env, o, p, x))
            && (o.verifier.None? || o.verifier.value.answer == Reports(o.verifier.value.left) ==>
                  && (r.status.Succeeded? <==>
                        BothRecorded(env, o, p, x) && Verdict(p, o, x).answer.status.Succeeded?)
                  && (r.ending == Completed(true) <==> r.status.Succeeded? && o.readable))
  {
    var x := Executed(p, o);
    UnhandledLifecycle(env, o, p, x);
    if !MissesPlan(env, o, p, x) && !BothRecorded(env, o, p, x) { HandledSettles(env, o, p, x); }
  }

  /** Status by status: the handler of a failed hook finds what the hook left, and a verifier's answer stands
      whatever was there before. */
  lemma InjectedStatusesStand(env: Env, o: Outside, p: Proposal)
    requires Identified(p) && Accepted(p, Executed(p, o)) && Recorded(env, o, ExecutionEvent(p, o, Executed(p, o).left))
    ensures var r := Attempt(env, o, p, Approved);
            && (o.hook.Some? && o.hook.value.raises && o.hook.value.left !in {Executing, Succeeded, Failed} ==>
                  r.status == o.hook.value.left)
            && (o.hook.None? || !o.hook.value.raises ==>
                  o.verifier.Some? && o.verifier.value.left !in {Executing, Succeeded, Failed} ==>
                    r.status == o.verifier.value.left)
            && (o.hook.Some? && !o.hook.value.raises && o.verifier.None?
                && o.hook.value.left !in {Executing, Succeeded, Failed} ==>
                  r.status == o.hook.value.left)
  {
  }

  /** With nothing injected, a dry run of an approved plan succeeds exactly when its action is
      allowlisted and the two events can be recorded, and then returns exactly if the trail can be read. */
  lemma UndisturbedRunSucceeds(env: Env, o: Outside, p: Proposal)
    requires o.executor.None? && o.hook.None? && o.verifier.None? && o.refused == {} && Identified(p)
    ensures var r := Attempt(env, o, p, Approved);
            && (r.status.Succeeded? <==>
                  && p.actionType in ALLOWED_ACTIONS && o.dryRun
                  && Recordable(env, ExecutionEvent(p, o, Executing))
                  && Recordable(env, CompletionEvent(p, o, Executing, Succeeded)))
            && (r.ending == Completed(true) <==> r.status.Succeeded? && o.readable)
  {
  }

  /** Verifying is not idempotent: repeated on a plan that has already succeeded it raises, and moves
      the plan into recovery. */
  lemma VerifyingAgainUndoesSuccess(env: Env, o: Outside, p: Proposal, result: ExecutionResult)
    requires o.verifier.None?
    ensures var r := Verified(env, o, p, Succeeded, Succeeded, result);
            r.ending.Raised? && r.status == if p.rollbackAvailable then RollbackRequired else Failed
  {
  }

  /** So a failing last read costs a success: the call raises although the plan succeeded with both events
      recorded, and verifying again, the retry that the bridge offers, moves the plan into recovery. */
  lemma FailedReadCostsSuccess(env: Env, o: Outside, p: Proposal, again: Outside, result: ExecutionResult)
    requires o.executor.None? && o.hook.None? && o.verifier.None? && o.refused == {} && Identified(p)
    requires p.actionType in ALLOWED_ACTIONS && o.dryRun && !o.readable && again.verifier.None?
    requires Recordable(env, ExecutionEvent(p, o, Executing))
    requires Recordable(env, CompletionEvent(p, o, Executing, Succeeded))
    ensures var r := Attempt(env, o, p, Approved);
            && r == Lifecycle(Succeeded,
                              [ExecutionEvent(p, o, Executing), CompletionEvent(p, o, Executing, Succeeded)], Raised)
            && Verified(env, again, p, r.status, r.status, result).status
               == if p.rollbackAvailable then RollbackRequired else Failed
  {
    VerifyingAgainUndoesSuccess(env, again, p, result);
  }

  /** The ways to get stuck are real: an executor that raises, one that answers for another plan, a verifier
      that returns no plan, and one that hands the plan back as it is. */
  lemma StuckWays(env: Env, p: Proposal, details: string -> map<string, Json>, result: ExecutionResult)
    requires Identified(p) && result.actionId != p.actionId
    ensures var o := Outside(true, None, None, None, {}, true, details, "", None);
            && Attempt(env, o.(executor := Some(Execution(Executing, None))), p, Approved).status.Executing?
            && Attempt(env, o.(executor := Some(Execution(Executing, Some(result)))), p, Approved).status.Executing?
            && (p.actionType in ALLOWED_ACTIONS && Recordable(env, ExecutionEvent(p, o, Executing)) ==>
                  && Attempt(env, o.(verifier := Some(Verification(Executing, NoPlan))), p, Approved)
                     == Lifecycle(Executing, [ExecutionEvent(p, o, Executing)], Raised)
                  && (Recordable(env, CompletionEvent(p, o, Executing, Executing)) ==>
                        Attempt(env, o.(verifier := Some(Verification(Executing, Reports(Executing)))), p, Approved)
                        == Lifecycle(Executing, [ExecutionEvent(p, o, Executing),
                                                 CompletionEvent(p, o, Executing, Executing)],
                                     Completed(false))))
  {
  }
}
