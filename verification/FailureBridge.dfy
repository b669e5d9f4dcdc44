/** The worker program that drives the claim protocol: one trace, one or two events, each claimed
    and then finalised with its audit append. */
module FailureBridge {
  import opened Outcomes
  import opened Text
  import opened JsonValues
  import opened AuditChain
  import opened AuditTrails
  import opened ClaimProtocol

  datatype Trace = Trace(runId: string, outcome: string, evidence: map<string, Json>)

  /** An event to emit: its name and its evidence. */
  datatype Emission = Emission(kind: string, evidence: map<string, Json>)

  /** What one loop iteration draws from outside: a token, a clock reading, an event timestamp. */
  datatype Draw = Draw(token: string, now: real, stamp: string)

  /** All that one loop iteration works with; `event` is None when its audit fields are not text. */
  datatype Job = Job(key: Key, evidence: map<string, Json>, event: Option<AuditEvent>, token: string, now: real)

  // ---- From trace to events ---------------------------------------------------------

  function ActionId(evidence: map<string, Json>): Json {
    Or(Get(SubObject(evidence, "recovery_evidence"), "action_id"),
       Or(Get(SubObject(evidence, "trace"), "action_id"),
          if "action_id" in evidence then evidence["action_id"] else Null))
  }

  /** The trace's evidence under its stripped run id and its outcome. */
  function TraceEvidence(trace: Trace): map<string, Json> {
    trace.evidence["run_id" := Str(Strip(trace.runId))]["outcome" := Str(trace.outcome)]
  }

  function RecoveryEvidence(evidence: map<string, Json>, run: string, outcome: string): map<string, Json> {
    map["run_id" := Str(run), "outcome" := Str(outcome), "action_id" := ActionId(evidence),
        "trace" := if "trace" in evidence then evidence["trace"] else Obj(map[]),
        "recovery_evidence" := if "recovery_evidence" in evidence then evidence["recovery_evidence"] else Obj(map[])]
  }

  /** _events_for_trace; None where testing an unhashable recovery_outcome raises TypeError. */
  function EventsForTrace(trace: Trace): Option<seq<Emission>> {
    var evidence := TraceEvidence(trace);
    var first := Emission(
      if trace.outcome == "failed" then "autonomous_run_failed" else "autonomous_run_recovery_completed", evidence);
    match Get(evidence, "recovery_outcome")
    case Some(Arr(_)) => None
    case Some(Obj(_)) => None
    case Some(Str(outcome)) =>
      if outcome in {"failed", "recovered", "completed"} then
        Some([first, Emission(if outcome == "failed" then "recovery_failed" else "recovery_completed",
                              RecoveryEvidence(evidence, Strip(trace.runId), outcome))])
      else Some([first])
    case _ => Some([first])
  }

  /** _audit_kwargs followed by the type checks of AuditTrail.record: None where a field is not text. */
  function BuildEvent(emission: Emission, run: string, stamp: string): Option<AuditEvent> {
    var evidence := emission.evidence;
    var recovery := SubObject(evidence, "recovery_evidence");
    var actionId := Or(Get(recovery, "action_id"), Or(Get(SubObject(evidence, "trace"), "action_id"),
                       Or(Get(evidence, "action_id"), Str("audit-" + run))));
    var actionType := Or(Get(recovery, "action_type"),
                         Or(Get(evidence, "action_type"), Str("autonomous_failure_recovery")));
    var resourceType := Or(Get(recovery, "resource_type"), Or(Get(evidence, "resource_type"), Str("autonomous_run")));
    var resourceId := Or(Get(recovery, "resource_id"), Or(Get(evidence, "resource_id"), Str(run)));
    var oldStatus := Or(Get(recovery, "old_status"), Str("unknown"));
    var newStatus := Or(Get(recovery, "new_status"), Or(Get(evidence, "outcome"), Str("unknown")));
    if actionId.Str? && actionType.Str? && resourceType.Str? && resourceId.Str? && oldStatus.Str? && newStatus.Str?
    then Some(AuditEvent(actionId.s, actionType.s, resourceType.s, resourceId.s, oldStatus.s, newStatus.s,
                         emission.kind, stamp, evidence, None))
    else None
  }

  const ACTION_KEYS: set<string> :=
    {"action_id", "action_type", "resource_type", "resource_id", "old_status", "new_status"}

  function ActionField(e: AuditEvent, key: string): string
    requires key in ACTION_KEYS
  {
    match key
    case "action_id" => e.actionId
    case "action_type" => e.actionType
    case "resource_type" => e.resourceType
    case "resource_id" => e.resourceId
    case "old_status" => e.oldStatus
    case _ => e.newStatus
  }

  /** Whatever the recovery evidence says of the action, under its own name, the event says too. */
  lemma RecoveryEvidenceWins(emission: Emission, run: string, stamp: string, key: string)
    requires BuildEvent(emission, run, stamp).Some? && key in ACTION_KEYS
    requires var recovery := SubObject(emission.evidence, "recovery_evidence"); key in recovery && Truthy(recovery[key])
    ensures Str(ActionField(BuildEvent(emission, run, stamp).value, key))
            == SubObject(emission.evidence, "recovery_evidence")[key]
  {
    assert key in {"action_id", "action_type", "resource_type", "resource_id", "old_status", "new_status"};
  }

  predicate Gives(fields: map<string, Json>, key: string) {
    key in fields && Truthy(fields[key])
  }

  /** The recovery event reads this field as the run event does: from the recovery evidence, or else both
      fall back on the default. Its own evidence no longer holds the trace's top-level value. */
  predicate Carried(evidence: map<string, Json>, key: string, fallback: Json) {
    Gives(SubObject(evidence, "recovery_evidence"), key) || !Gives(evidence, key) || evidence[key] == fallback
  }

  lemma RecoveryEvidenceKeeps(evidence: map<string, Json>, run: string, outcome: string)
    ensures var e := RecoveryEvidence(evidence, run, outcome);
            && SubObject(e, "recovery_evidence") == SubObject(evidence, "recovery_evidence")
            && SubObject(e, "trace") == SubObject(evidence, "trace")
            && Get(e, "action_id") == Some(ActionId(evidence)) && Get(e, "outcome") == Some(Str(outcome))
            && e.Keys !! {"action_type", "resource_type", "resource_id"}
  {
  }

  lemma SameActionId(evidence: map<string, Json>, run: string, outcome: string, fallback: Json)
    ensures var (e, recovery, trace) := (RecoveryEvidence(evidence, run, outcome),
                                         SubObject(evidence, "recovery_evidence"), SubObject(evidence, "trace"));
            Or(Get(recovery, "action_id"), Or(Get(trace, "action_id"), Or(Get(e, "action_id"), fallback)))
            == Or(Get(recovery, "action_id"), Or(Get(trace, "action_id"), Or(Get(evidence, "action_id"), fallback)))
  {
  }

  lemma TwoEmissions(trace: Trace)
    requires EventsForTrace(trace).Some? && |EventsForTrace(trace).value| == 2
    ensures var (evidence, emissions) := (TraceEvidence(trace), EventsForTrace(trace).value);
            && emissions[0].evidence == evidence && Get(evidence, "outcome") == Some(Str(trace.outcome))
            && "recovery_outcome" in evidence && evidence["recovery_outcome"].Str?
            && evidence["recovery_outcome"].s != ""
            && emissions[1].evidence == RecoveryEvidence(evidence, Strip(trace.runId), evidence["recovery_outcome"].s)
  {
  }

  lemma PairedEvents(evidence: map<string, Json>, run: string, ran: Emission, outcome: string, recovered: Emission,
                     ranAt: string, recoveredAt: string)
    requires ran.evidence == evidence && recovered.evidence == RecoveryEvidence(evidence, run, outcome)
    requires "outcome" in evidence && evidence["outcome"].Str? && outcome != ""
    requires BuildEvent(ran, run, ranAt).Some? && BuildEvent(recovered, run, recoveredAt).Some?
    ensures var (a, b) := (BuildEvent(ran, run, ranAt).value, BuildEvent(recovered, run, recoveredAt).value);
            && a.actionId == b.actionId && a.oldStatus == b.oldStatus
            && (a.actionType == b.actionType <==> Carried(evidence, "action_type", Str("autonomous_failure_recovery")))
            && (a.resourceType == b.resourceType <==> Carried(evidence, "resource_type", Str("autonomous_run")))
            && (a.resourceId == b.resourceId <==> Carried(evidence, "resource_id", Str(run)))
            && (a.newStatus == b.newStatus <==>
                  || Gives(SubObject(evidence, "recovery_evidence"), "new_status")
                  || (if evidence["outcome"].s == "" then "unknown" else evidence["outcome"].s) == outcome)
  {
    RecoveryEvidenceKeeps(evidence, run, outcome);
    SameActionId(evidence, run, outcome, Str("audit-" + run));
  }

  /** Where a trace gives two events, both name one action and one former status, whatever the trace holds;
      they agree on the type and the resource exactly where the recovery evidence names them or the trace
      adds nothing to the defaults, and on the new status exactly where the recovery evidence names it or the
      recovery ended as the run did. */
  lemma BothEventsNameTheAction(trace: Trace, ranAt: string, recoveredAt: string)
    requires EventsForTrace(trace).Some? && |EventsForTrace(trace).value| == 2
    requires var (run, emissions) := (Strip(trace.runId), EventsForTrace(trace).value);
             BuildEvent(emissions[0], run, ranAt).Some? && BuildEvent(emissions[1], run, recoveredAt).Some?
    ensures var (run, emissions) := (Strip(trace.runId), EventsForTrace(trace).value);
            var (a, b) := (BuildEvent(emissions[0], run, ranAt).value,
                           BuildEvent(emissions[1], run, recoveredAt).value);
            var evidence := TraceEvidence(trace);
            && a.actionId == b.actionId && a.oldStatus == b.oldStatus
            && (a.actionType == b.actionType <==> Carried(evidence, "action_type", Str("autonomous_failure_recovery")))
            && (a.resourceType == b.resourceType <==> Carried(evidence, "resource_type", Str("autonomous_run")))
            && (a.resourceId == b.resourceId <==> Carried(evidence, "resource_id", Str(run)))
            && (a.newStatus == b.newStatus <==>
                  || Gives(SubObject(evidence, "recovery_evidence"), "new_status")
                  || Get(evidence, "recovery_outcome") == Some(Str(trace.outcome)))
  {
    TwoEmissions(trace);
    var (evidence, emissions) := (TraceEvidence(trace), EventsForTrace(trace).value);
    PairedEvents(evidence, Strip(trace.runId), emissions[0], evidence["recovery_outcome"].s, emissions[1], ranAt,
                 recoveredAt);
    assert evidence["recovery_outcome"].s in {"failed", "recovered", "completed"};
  }

  /** What the sources of a field come to, in their order; the default where none gives it. */
  predicate Chosen(value: string, first: map<string, Json>, second: map<string, Json>, key: string, fallback: string) {
    && (Gives(first, key) ==> Str(value) == first[key])
    && (!Gives(first, key) && Gives(second, key) ==> Str(value) == second[key])
    && (!Gives(first, key) && !Gives(second, key) ==> value == fallback)
  }

  /** Where every field of the event comes from. */
  lemma EventFieldsAreChosen(emission: Emission, run: string, stamp: string)
    requires BuildEvent(emission, run, stamp).Some?
    ensures var (e, evidence) := (BuildEvent(emission, run, stamp).value, emission.evidence);
            var (recovery, traced) := (SubObject(evidence, "recovery_evidence"), SubObject(evidence, "trace"));
            && (Gives(recovery, "action_id") ==> Str(e.actionId) == recovery["action_id"])
            && (!Gives(recovery, "action_id") ==> Chosen(e.actionId, traced, evidence, "action_id", "audit-" + run))
            && Chosen(e.actionType, recovery, evidence, "action_type", "autonomous_failure_recovery")
            && Chosen(e.resourceType, recovery, evidence, "resource_type", "autonomous_run")
            && Chosen(e.resourceId, recovery, evidence, "resource_id", run)
            && Chosen(e.oldStatus, recovery, map[], "old_status", "unknown")
            && (Gives(recovery, "new_status") ==> Str(e.newStatus) == recovery["new_status"])
            && (!Gives(recovery, "new_status") ==> Chosen(e.newStatus, map[], evidence, "outcome", "unknown"))
            && e.event == emission.kind && e.details == evidence && e.timestamp == stamp && e.actorId.None?
  {
  }

  // ---- Which events a trace emits ----------------------------------------------------------

  /** The event that reports how the run ended. */
  predicate NamesRun(trace: Trace, kind: string) {
    || (kind == "autonomous_run_failed" && trace.outcome == "failed")
    || (kind == "autonomous_run_recovery_completed" && trace.outcome != "failed")
  }

  /** The event that reports how its recovery ended, when the evidence says so. */
  predicate NamesRecovery(trace: Trace, kind: string) {
    var outcome := Get(trace.evidence, "recovery_outcome");
    || (kind == "recovery_failed" && outcome == Some(Str("failed")))
    || (kind == "recovery_completed" && outcome in {Some(Str("recovered")), Some(Str("completed"))})
  }

  predicate Recovers(trace: Trace) {
    Get(trace.evidence, "recovery_outcome") in {Some(Str("failed")), Some(Str("recovered")), Some(Str("completed"))}
  }

  /** The evidence names the run and the outcome that the event reports. */
  predicate Carries(evidence: map<string, Json>, trace: Trace, kind: string) {
    && Get(evidence, "run_id") == Some(Str(Strip(trace.runId)))
    && (NamesRun(trace, kind) ==> Get(evidence, "outcome") == Some(Str(trace.outcome)))
    && (NamesRecovery(trace, kind) ==> Get(evidence, "outcome") == Get(trace.evidence, "recovery_outcome"))
  }

  /** A trace raises exactly for an unhashable recovery outcome. Otherwise it emits the run event, with all of
      its evidence, and for a known recovery outcome the recovery event after it. */
  lemma TraceEmissions(trace: Trace)
    ensures EventsForTrace(trace).None? <==>
              var outcome := Get(trace.evidence, "recovery_outcome");
              outcome.Some? && (outcome.value.Arr? || outcome.value.Obj?)
    ensures EventsForTrace(trace).Some? ==>
              var emissions := EventsForTrace(trace).value;
              && |emissions| == (if Recovers(trace) then 2 else 1)
              && NamesRun(trace, emissions[0].kind) && Carries(emissions[0].evidence, trace, emissions[0].kind)
              && (forall k :: k !in {"run_id", "outcome"} ==> Get(emissions[0].evidence, k) == Get(trace.evidence, k))
              && (Recovers(trace) ==>
                    && NamesRecovery(trace, emissions[1].kind)
                    && Carries(emissions[1].evidence, trace, emissions[1].kind))
  {
  }

  /** Evidence that says nothing of an action, with an outcome that is text and not blank space. */
  predicate Bare(evidence: map<string, Json>) {
    && SubObject(evidence, "recovery_evidence") == map[] && SubObject(evidence, "trace") == map[]
    && (forall k :: k in {"action_id", "action_type", "resource_type", "resource_id"} && k in evidence ==>
          evidence[k].Null?)
    && "outcome" in evidence && evidence["outcome"].Str?
    && (Blank(evidence["outcome"].s) ==> evidence["outcome"].s == "")
  }

  lemma BareTraceEvidence(trace: Trace)
    requires trace.evidence.Keys !! {"recovery_evidence", "trace", "action_id", "action_type", "resource_type",
                                     "resource_id"}
    requires Blank(trace.outcome) ==> trace.outcome == ""
    ensures Bare(TraceEvidence(trace))
  {
    var evidence := TraceEvidence(trace);
    forall k | k in evidence ensures k in trace.evidence || k == "run_id" || k == "outcome" {}
  }

  lemma BareRecoveryEvidence(evidence: map<string, Json>, run: string, outcome: string)
    requires Bare(evidence) && outcome in {"failed", "recovered", "completed"}
    ensures Bare(RecoveryEvidence(evidence, run, outcome))
  {
    assert !IsSpace(outcome[0]);
    assert ActionId(evidence).Null?;
  }

  lemma BareEvidenceIsRecordable(emission: Emission, run: string, stamp: string)
    requires !Blank(run) && emission.kind in BRIDGE_EVENTS && Bare(emission.evidence)
    ensures var event := BuildEvent(emission, run, stamp); event.Some? && RecordValid(event.value)
  {
    assert !Blank("audit-" + run) by { assert !IsSpace(("audit-" + run)[0]); }
    assert !IsSpace("autonomous_failure_recovery"[0]) && !IsSpace("autonomous_run"[0]) && !IsSpace("unknown"[0]);
    assert !Blank(emission.kind) by { assert !IsSpace(emission.kind[0]); }
  }

  lemma EmissionsOfTrace(trace: Trace)
    requires EventsForTrace(trace).Some?
    ensures var (evidence, emissions) := (TraceEvidence(trace), EventsForTrace(trace).value);
            && 1 <= |emissions| <= 2
            && emissions[0].evidence == evidence && emissions[0].kind in BRIDGE_EVENTS
            && (|emissions| == 2 ==>
                  && emissions[1].kind in BRIDGE_EVENTS
                  && exists outcome :: outcome in {"failed", "recovered", "completed"}
                       && emissions[1].evidence == RecoveryEvidence(evidence, Strip(trace.runId), outcome))
  {
  }

  /** A trace that says nothing of an action still yields only events the audit trail accepts. */
  lemma BareTraceIsRecordable(trace: Trace, stamp: string, i: nat)
    requires !Blank(trace.runId) && (Blank(trace.outcome) ==> trace.outcome == "")
    requires trace.evidence.Keys !! {"recovery_evidence", "trace", "action_id", "action_type", "resource_type",
                                     "resource_id"}
    requires EventsForTrace(trace).Some? && i < |EventsForTrace(trace).value|
    ensures var event := BuildEvent(EventsForTrace(trace).value[i], Strip(trace.runId), stamp);
            event.Some? && RecordValid(event.value)
  {
    var (run, emission) := (Strip(trace.runId), EventsForTrace(trace).value[i]);
    StripFacts(trace.runId);
    BareTraceEvidence(trace);
    EmissionsOfTrace(trace);
    if i == 1 {
      var outcome :| outcome in {"failed", "recovered", "completed"}
                     && emission.evidence == RecoveryEvidence(TraceEvidence(trace), run, outcome);
      BareRecoveryEvidence(TraceEvidence(trace), run, outcome);
    }
    assert run != "" ==> !Blank(run);
    BareEvidenceIsRecordable(emission, run, stamp);
  }

  function JobOf(run: string, emission: Emission, draw: Draw): Job {
    Job(Key(run, emission.kind), emission.evidence, BuildEvent(emission, run, draw.stamp), draw.token, draw.now)
  }

  function JobsOf(run: string, emissions: seq<Emission>, draws: seq<Draw>): (jobs: seq<Job>)
    requires |emissions| <= |draws|
    ensures |jobs| == |emissions|
  {
    seq(|emissions|, i requires 0 <= i < |emissions| && |emissions| <= |draws| => JobOf(run, emissions[i], draws[i]))
  }

  /** The job claims under its own run id, and the event it will record reports just that claim. */
  predicate JobOk(job: Job) {
    BelongsTo(job.evidence, job.key) && (job.event.Some? ==> Reports(job.event.value, job.key, job.evidence))
  }

  /** Jobs of one trace: each in order, no two for one key. */
  predicate WellFormed(jobs: seq<Job>) {
    && (forall i :: 0 <= i < |jobs| ==> JobOk(jobs[i]))
    && (forall i, j :: 0 <= i < j < |jobs| ==> jobs[i].key != jobs[j].key)
  }

  lemma JobReports(run: string, emission: Emission, draw: Draw)
    ensures var event := JobOf(run, emission, draw).event;
            event.Some? ==> Reports(event.value, Key(run, emission.kind), emission.evidence)
  {
  }

  lemma TraceEventsBelong(trace: Trace)
    ensures EventsForTrace(trace).Some? ==>
              var emissions := EventsForTrace(trace).value;
              && 1 <= |emissions| <= 2
              && (forall i :: 0 <= i < |emissions| ==>
                    BelongsTo(emissions[i].evidence, Key(Strip(trace.runId), emissions[i].kind)))
              && (|emissions| == 2 ==> emissions[0].kind != emissions[1].kind)
  {
  }

  /** Every trace yields well-formed jobs. */
  lemma TraceJobsAreWellFormed(trace: Trace, draws: seq<Draw>)
    requires |draws| >= 2
    ensures EventsForTrace(trace).Some? ==>
              |EventsForTrace(trace).value| <= |draws|
              && WellFormed(JobsOf(Strip(trace.runId), EventsForTrace(trace).value, draws))
  {
    TraceEventsBelong(trace);
    if EventsForTrace(trace).Some? {
      var (run, emissions) := (Strip(trace.runId), EventsForTrace(trace).value);
      var jobs := JobsOf(run, emissions, draws);
      forall i | 0 <= i < |jobs| ensures JobOk(jobs[i]) { JobReports(run, emissions[i], draws[i]); }
    }
  }

  // ---- One run of record() ------------------------------------------------------------

  /** How one loop iteration ends. */
  datatype Fate = Emits | Skips | Raises

  /** One iteration: claim, and if granted finalise together with the audit append. What the claim
      transaction committed stays when the second step raises. */
  function RecordOne(env: Env, lease: nat, chain: Chain, claims: Claims, job: Job): (Chain, Claims, Fate) {
    var (claimed, answer) := Claim(claims, lease, job.key, job.evidence, job.token, job.now);
    if answer.Conflict? then (chain, claimed, Raises)
    else if answer.Refused? then (chain, claimed, Skips)
    else if job.event.None? then (chain, claimed, Raises)
    else
      match MarkWithAudit(env, chain, claimed, job.key, job.token, job.event.value)
      case Err(_) => (chain, claimed, Raises)
      case Ok((extended, marked, done)) => (extended, marked, if done then Emits else Raises)
  }

  datatype Outcome = Recorded(emitted: seq<string>, skipped: seq<string>) | Raised

  /** The database after record(), and what it returned. */
  datatype After = After(chain: Chain, claims: Claims, outcome: Outcome)

  function Also(emitted: seq<string>, skipped: seq<string>, rest: After): After {
    if rest.outcome.Raised? then rest
    else rest.(outcome := Recorded(emitted + rest.outcome.emitted, skipped + rest.outcome.skipped))
  }

  function RecordFrom(env: Env, lease: nat, chain: Chain, claims: Claims, jobs: seq<Job>): After
    decreases |jobs|
  {
    if jobs == [] then After(chain, claims, Recorded([], []))
    else
      var (extended, claimed, fate) := RecordOne(env, lease, chain, claims, jobs[0]);
      if fate.Raises? then After(extended, claimed, Raised)
      else
        var kind := jobs[0].key.kind;
        Also(if fate.Emits? then [kind] else [], if fate.Skips? then [kind] else [],
             RecordFrom(env, lease, extended, claimed, jobs[1..]))
  }

  ghost predicate SameAt(before: Claims, after: Claims, key: Key) {
    (key in before <==> key in after) && (key in before ==> before[key] == after[key])
  }

  lemma OneJobElsewhere(env: Env, lease: nat, chain: Chain, claims: Claims, job: Job, k: Key)
    requires k != job.key
    ensures SameAt(claims, RecordOne(env, lease, chain, claims, job).1, k)
  {
  }

  predicate DistinctKeys(jobs: seq<Job>) {
    forall i, j :: 0 <= i < j < |jobs| ==> jobs[i].key != jobs[j].key
  }

  predicate IsDenied(lease: nat, claims: Claims, job: Job) {
    Denied(claims, lease, job.key, job.evidence, job.token, job.now)
  }

  /** How one iteration ends, from the row it meets. */
  lemma OneFate(env: Env, lease: nat, chain: Chain, claims: Claims, job: Job)
    ensures var (extended, after, fate) := RecordOne(env, lease, chain, claims, job);
            && (Disagrees(claims, job.key, job.evidence) ==> fate.Raises?)
            && (fate.Skips? <==> IsDenied(lease, claims, job))
            && (fate.Skips? ==> (extended, after) == (chain, claims))
            && (fate.Emits? ==> IsEmitted(after, job.key) && after[job.key].evidence == job.evidence)
            && (fate.Emits? <==>
                  && !Disagrees(claims, job.key, job.evidence) && !IsDenied(lease, claims, job)
                  && job.event.Some? && TryAppend(env, chain, job.event.value).Ok?)
  {
    ClaimAnswers(claims, lease, job.key, job.evidence, job.token, job.now);
    var claimed := Claim(claims, lease, job.key, job.evidence, job.token, job.now).0;
    ClaimContract(claims, lease, job.key, job.evidence, job.token, job.now);
    if job.event.Some? { FinalisationAnswers(env, chain, claimed, job.key, job.token, job.event.value); }
  }

  /** The kinds of the jobs that are denied, or that are not, in trace order. */
  function KindsIf(lease: nat, claims: Claims, jobs: seq<Job>, denied: bool): seq<string> {
    if jobs == [] then []
    else (if IsDenied(lease, claims, jobs[0]) == denied then [jobs[0].key.kind] else [])
         + KindsIf(lease, claims, jobs[1..], denied)
  }

  lemma {:induction false} SameDenials(lease: nat, before: Claims, after: Claims, jobs: seq<Job>, denied: bool)
    requires forall i :: 0 <= i < |jobs| ==> SameAt(before, after, jobs[i].key)
    ensures KindsIf(lease, before, jobs, denied) == KindsIf(lease, after, jobs, denied)
  {
    if jobs != [] {
      assert SameAt(before, after, jobs[0].key);
      SameDenials(lease, before, after, jobs[1..], denied);
    }
  }

  /** What a reported job leaves behind: under its very evidence, the row it met if that denied it, and an
      emitted one otherwise. */
  ghost predicate Stands(lease: nat, before: Claims, after: Claims, job: Job) {
    && !Disagrees(before, job.key, job.evidence)
    && job.key in after && after[job.key].evidence == job.evidence
    && if IsDenied(lease, before, job) then SameAt(before, after, job.key) else IsEmitted(after, job.key)
  }

  ghost predicate AllStand(lease: nat, before: Claims, after: Claims, jobs: seq<Job>) {
    forall i :: 0 <= i < |jobs| ==> Stands(lease, before, after, jobs[i])
  }

  ghost predicate OthersSame(before: Claims, after: Claims, jobs: seq<Job>) {
    forall k :: (forall i :: 0 <= i < |jobs| ==> k != jobs[i].key) ==> SameAt(before, after, k)
  }

  lemma FirstStands(lease: nat, before: Claims, between: Claims, after: Claims, jobs: seq<Job>)
    requires jobs != [] && DistinctKeys(jobs) && Stands(lease, before, between, jobs[0])
    requires (forall k :: k != jobs[0].key ==> SameAt(before, between, k)) && OthersSame(between, after, jobs[1..])
    requires AllStand(lease, between, after, jobs[1..])
    ensures AllStand(lease, before, after, jobs)
  {
    var rest := jobs[1..];
    assert SameAt(between, after, jobs[0].key);
    forall i | 0 <= i < |jobs| ensures Stands(lease, before, after, jobs[i]) {
      if i > 0 { assert Stands(lease, between, after, rest[i - 1]) && SameAt(before, between, jobs[i].key); }
    }
  }

  lemma OthersStaySame(before: Claims, between: Claims, after: Claims, jobs: seq<Job>)
    requires jobs != [] && forall k :: k != jobs[0].key ==> SameAt(before, between, k)
    requires OthersSame(between, after, jobs[1..])
    ensures OthersSame(before, after, jobs)
  {
    var rest := jobs[1..];
    forall k | forall i :: 0 <= i < |jobs| ==> k != jobs[i].key ensures SameAt(before, after, k) {
      assert forall i :: 0 <= i < |rest| ==> k != rest[i].key;
      assert SameAt(before, between, k) && SameAt(between, after, k);
    }
  }

  /** record() that returns has met no row with other evidence. It reports as skipped exactly the denied kinds,
      whose rows store this very evidence and stay as they are, and as emitted exactly the others, whose rows
      are now emitted under it. Whether or not it returns, it touches no other key. */
  lemma {:induction false} RecordedMeans(env: Env, lease: nat, chain: Chain, claims: Claims, jobs: seq<Job>)
    requires DistinctKeys(jobs)
    ensures var a := RecordFrom(env, lease, chain, claims, jobs);
            && OthersSame(claims, a.claims, jobs)
            && (a.outcome.Recorded? ==>
                  && AllStand(lease, claims, a.claims, jobs)
                  && a.outcome == Recorded(KindsIf(lease, claims, jobs, false), KindsIf(lease, claims, jobs, true)))
    decreases |jobs|
  {
    if jobs != [] {
      var (extended, after, fate) := RecordOne(env, lease, chain, claims, jobs[0]);
      var rest := jobs[1..];
      OneFate(env, lease, chain, claims, jobs[0]);
      forall k | k != jobs[0].key ensures SameAt(claims, after, k) {
        OneJobElsewhere(env, lease, chain, claims, jobs[0], k);
      }
      if !fate.Raises? {
        RecordedMeans(env, lease, extended, after, rest);
        var tail := RecordFrom(env, lease, extended, after, rest);
        OthersStaySame(claims, after, tail.claims, jobs);
        if tail.outcome.Recorded? {
          assert Stands(lease, claims, after, jobs[0]);
          FirstStands(lease, claims, after, tail.claims, jobs);
          SameDenials(lease, claims, after, rest, true);
          SameDenials(lease, claims, after, rest, false);
        }
      }
    }
  }

  /** The job meets no row with other evidence, and is denied or has an event that can be recorded. */
  predicate Passes(env: Env, lease: nat, claims: Claims, job: Job) {
    && !Disagrees(claims, job.key, job.evidence)
    && (IsDenied(lease, claims, job) || (job.event.Some? && Recordable(env, job.event.value)))
  }

  lemma OnePasses(env: Env, lease: nat, chain: Chain, claims: Claims, job: Job)
    requires HeadOk(chain)
    ensures var (extended, _, fate) := RecordOne(env, lease, chain, claims, job);
            HeadOk(extended) && (!fate.Raises? <==> Passes(env, lease, claims, job))
  {
    OneFate(env, lease, chain, claims, job);
    if job.event.Some? { AppendKeepsHead(env, chain, job.event.value); }
  }

  /** So on a good log record() returns exactly when every job passes. */
  lemma {:induction false} RecordsExactlyWhenAllPass(env: Env, lease: nat, chain: Chain, claims: Claims, jobs: seq<Job>)
    requires HeadOk(chain) && DistinctKeys(jobs)
    ensures RecordFrom(env, lease, chain, claims, jobs).outcome.Recorded? <==>
              forall i :: 0 <= i < |jobs| ==> Passes(env, lease, claims, jobs[i])
    decreases |jobs|
  {
    if jobs != [] {
      var (extended, after, fate) := RecordOne(env, lease, chain, claims, jobs[0]);
      var rest := jobs[1..];
      OnePasses(env, lease, chain, claims, jobs[0]);
      RecordsExactlyWhenAllPass(env, lease, extended, after, rest);
      forall i | 0 <= i < |rest|
        ensures Passes(env, lease, after, rest[i]) <==> Passes(env, lease, claims, jobs[i + 1])
      {
        OneJobElsewhere(env, lease, chain, claims, jobs[0], rest[i].key);
      }
      assert (forall i :: 0 <= i < |jobs| ==> Passes(env, lease, claims, jobs[i]))
        <==> Passes(env, lease, claims, jobs[0]) && forall i :: 0 <= i < |rest| ==> Passes(env, lease, after, rest[i]);
    }
  }

  /** What record() reports of a trace, in the trace's own terms: each of its events once, as emitted or as
      skipped; an emitted one's row is emitted, a skipped one's row was there and stays as it was, and either
      stores evidence of this run with this outcome. */
  ghost predicate ReportsTrace(trace: Trace, before: Claims, after: Claims, emitted: seq<string>,
                               skipped: seq<string>)
  {
    && |emitted| + |skipped| == (if Recovers(trace) then 2 else 1)
    && (forall kind :: kind in emitted || kind in skipped <==> NamesRun(trace, kind) || NamesRecovery(trace, kind))
    && (forall kind :: kind in emitted ==>
          var key := Key(Strip(trace.runId), kind);
          IsEmitted(after, key) && Carries(after[key].evidence, trace, kind))
    && (forall kind :: kind in skipped ==>
          var key := Key(Strip(trace.runId), kind);
          key in before && key in after && after[key] == before[key] && Carries(before[key].evidence, trace, kind))
  }

  lemma TwoKinds(lease: nat, claims: Claims, jobs: seq<Job>)
    requires 1 <= |jobs| <= 2
    ensures forall denied: bool :: KindsIf(lease, claims, jobs, denied)
              == (if IsDenied(lease, claims, jobs[0]) == denied then [jobs[0].key.kind] else [])
                 + (if |jobs| == 2 && IsDenied(lease, claims, jobs[1]) == denied then [jobs[1].key.kind] else [])
  {
    forall denied: bool
      ensures KindsIf(lease, claims, jobs, denied)
              == (if IsDenied(lease, claims, jobs[0]) == denied then [jobs[0].key.kind] else [])
                 + (if |jobs| == 2 && IsDenied(lease, claims, jobs[1]) == denied then [jobs[1].key.kind] else [])
    {
      if |jobs| == 2 {
        assert jobs[1..][1..] == [];
        assert KindsIf(lease, claims, jobs[1..], denied)
          == if IsDenied(lease, claims, jobs[1]) == denied then [jobs[1].key.kind] else [];
      }
    }
  }

  /** The job reports the run (the first) or its recovery (the second). */
  predicate JobReportsTrace(trace: Trace, job: Job, first: bool) {
    && job.key.run == Strip(trace.runId) && Carries(job.evidence, trace, job.key.kind)
    && if first then NamesRun(trace, job.key.kind) else NamesRecovery(trace, job.key.kind)
  }

  /** Each job takes its token, its clock reading and its event's timestamp from its own draw. */
  lemma JobsAreDrawn(run: string, emissions: seq<Emission>, draws: seq<Draw>, i: nat)
    requires i < |emissions| <= |draws|
    ensures var job := JobsOf(run, emissions, draws)[i];
            && job.token == draws[i].token && job.now == draws[i].now
            && (job.event.Some? ==>
                  && job.event.value.timestamp == draws[i].stamp && job.event.value.event == job.key.kind
                  && job.event.value.details == job.evidence && job.event.value.actorId.None?)
  {
    if JobsOf(run, emissions, draws)[i].event.Some? { EventFieldsAreChosen(emissions[i], run, draws[i].stamp); }
  }

  lemma JobOfTrace(trace: Trace, draws: seq<Draw>, i: nat)
    requires EventsForTrace(trace).Some? && i < |EventsForTrace(trace).value| <= |draws|
    ensures JobReportsTrace(trace, JobsOf(Strip(trace.runId), EventsForTrace(trace).value, draws)[i], i == 0)
  {
    TraceEmissions(trace);
  }

  lemma OnlyOneName(trace: Trace, kind: string, other: string)
    requires || (NamesRun(trace, kind) && NamesRun(trace, other))
             || (NamesRecovery(trace, kind) && NamesRecovery(trace, other))
    ensures kind == other
  {
  }

  lemma JobsReportTrace(lease: nat, before: Claims, after: Claims, trace: Trace, jobs: seq<Job>)
    requires |jobs| == (if Recovers(trace) then 2 else 1) && AllStand(lease, before, after, jobs)
    requires JobReportsTrace(trace, jobs[0], true) && (Recovers(trace) ==> JobReportsTrace(trace, jobs[1], false))
    ensures ReportsTrace(trace, before, after, KindsIf(lease, before, jobs, false), KindsIf(lease, before, jobs, true))
  {
    TwoKinds(lease, before, jobs);
    assert Stands(lease, before, after, jobs[0]);
    if Recovers(trace) { assert Stands(lease, before, after, jobs[1]); }
    forall kind ensures NamesRun(trace, kind) || NamesRecovery(trace, kind)
                        <==> kind == jobs[0].key.kind || (Recovers(trace) && kind == jobs[1].key.kind)
    {
      if NamesRun(trace, kind) { OnlyOneName(trace, kind, jobs[0].key.kind); }
      if NamesRecovery(trace, kind) { OnlyOneName(trace, kind, jobs[1].key.kind); }
    }
  }

  lemma TraceIsReported(lease: nat, before: Claims, after: Claims, trace: Trace, draws: seq<Draw>)
    requires EventsForTrace(trace).Some? && |EventsForTrace(trace).value| <= |draws|
    requires var jobs := JobsOf(Strip(trace.runId), EventsForTrace(trace).value, draws);
             AllStand(lease, before, after, jobs)
    ensures var jobs := JobsOf(Strip(trace.runId), EventsForTrace(trace).value, draws);
            ReportsTrace(trace, before, after, KindsIf(lease, before, jobs, false), KindsIf(lease, before, jobs, true))
  {
    var jobs := JobsOf(Strip(trace.runId), EventsForTrace(trace).value, draws);
    TraceEmissions(trace);
    JobOfTrace(trace, draws, 0);
    if Recovers(trace) { JobOfTrace(trace, draws, 1); }
    JobsReportTrace(lease, before, after, trace, jobs);
  }

  lemma AlsoIsAssociative(a: seq<string>, b: seq<string>, c: seq<string>, d: seq<string>, rest: After)
    ensures Also(a, b, Also(c, d, rest)) == Also(a + c, b + d, rest)
  {
    if rest.outcome.Recorded? {
      assert a + (c + rest.outcome.emitted) == (a + c) + rest.outcome.emitted;
      assert b + (d + rest.outcome.skipped) == (b + d) + rest.outcome.skipped;
    }
  }

  /** The run id is stripped, the event is one of the bridge's, and the token is a drawn one. */
  predicate Callable(job: Job) {
    && Trimmed(job.key.run) && job.key.run != "" && job.key.kind in BRIDGE_EVENTS
    && Trimmed(job.token) && job.token != ""
  }

  lemma BridgeEventsAreTrimmed(kind: string)
    requires kind in BRIDGE_EVENTS
    ensures Strip(kind) == kind && !Blank(kind)
  {
    assert kind != "" && !IsSpace(kind[0]) && !IsSpace(kind[|kind| - 1]);
    TrimmedIsStripped(kind);
  }

  /** IdempotentFailureAuditBridge over shared SQL stores. */
  class IdempotentFailureAuditBridge {
    const trail: PersistentAuditTrail
    const store: PersistentAuditIdempotencyStore

    constructor (trail: PersistentAuditTrail, store: PersistentAuditIdempotencyStore)
      ensures this.trail == trail && this.store == store
    {
      this.trail, this.store := trail, store;
    }

    method RecordJob(job: Job) returns (fate: Fate)
      requires Callable(job)
      modifies trail, store
      ensures (trail.Contents(), store.rows, fate)
              == RecordOne(trail.env, store.lease, old(trail.Contents()), old(store.rows), job)
    {
      BridgeEventsAreTrimmed(job.key.kind);
      TrimmedIsStripped(job.key.run);
      StripFacts(job.key.run);
      var claim := store.ClaimEvent(job.key.run, job.key.kind, job.evidence, job.token, job.now, true);
      if claim.value.Conflict? { return Raises; }
      if claim.value.Refused? { return Skips; }
      if job.event.None? { return Raises; }
      TrimmedIsStripped(job.token);
      StripFacts(job.token);
      var marked := store.MarkEmittedWithAudit(job.key.run, job.key.kind, job.token, OneDatabase, trail,
                                               job.event.value);
      fate := if marked.Ok? && marked.value then Emits else Raises;
    }

    method RecordJobs(jobs: seq<Job>) returns (outcome: Outcome)
      requires forall i :: 0 <= i < |jobs| ==> Callable(jobs[i])
      modifies trail, store
      ensures After(trail.Contents(), store.rows, outcome)
              == RecordFrom(trail.env, store.lease, old(trail.Contents()), old(store.rows), jobs)
    {
      ghost var goal := RecordFrom(trail.env, store.lease, trail.Contents(), store.rows, jobs);
      var emitted: seq<string>, skipped: seq<string> := [], [];
      for i := 0 to |jobs|
        invariant goal == Also(emitted, skipped,
                               RecordFrom(trail.env, store.lease, trail.Contents(), store.rows, jobs[i..]))
      {
        assert jobs[i..][1..] == jobs[i + 1..];
        var fate := RecordJob(jobs[i]);
        if fate.Raises? { return Raised; }
        var newly := if fate.Emits? then [jobs[i].key.kind] else [];
        var again := if fate.Skips? then [jobs[i].key.kind] else [];
        AlsoIsAssociative(emitted, skipped, newly, again,
                          RecordFrom(trail.env, store.lease, trail.Contents(), store.rows, jobs[i + 1..]));
        emitted, skipped := emitted + newly, skipped + again;
      }
      outcome := Recorded(emitted, skipped);
      assert emitted + [] == emitted && skipped + [] == skipped;
    }

    method Record(trace: Trace, draws: seq<Draw>) returns (outcome: Outcome)
      requires |draws| >= 2 && forall i :: 0 <= i < |draws| ==> draws[i].token != "" && Trimmed(draws[i].token)
      modifies trail, store
      ensures Blank(trace.runId) || EventsForTrace(trace).None? ==>
                outcome.Raised? && trail.Contents() == old(trail.Contents()) && store.rows == old(store.rows)
      ensures !Blank(trace.runId) && EventsForTrace(trace).Some? ==>
                && |EventsForTrace(trace).value| <= |draws|
                && After(trail.Contents(), store.rows, outcome)
                   == RecordFrom(trail.env, store.lease, old(trail.Contents()), old(store.rows),
                                 JobsOf(Strip(trace.runId), EventsForTrace(trace).value, draws))
      ensures outcome.Recorded? ==>
                && !Blank(trace.runId)
                && ReportsTrace(trace, old(store.rows), store.rows, outcome.emitted, outcome.skipped)
    {
      var run := Strip(trace.runId);
      StripFacts(trace.runId);
      if run == "" { return Raised; }
      var found := EventsForTrace(trace);
      if found.None? { return Raised; }
      TraceJobsAreWellFormed(trace, draws);
      var jobs := JobsOf(run, found.value, draws);
      forall i | 0 <= i < |jobs|
        ensures Callable(jobs[i])
      {
        assert JobOk(jobs[i]);
      }
      outcome := RecordJobs(jobs);
      RecordedMeans(trail.env, store.lease, old(trail.Contents()), old(store.rows), jobs);
      if outcome.Recorded? { TraceIsReported(store.lease, old(store.rows), store.rows, trace, draws); }
    }
  }
}
