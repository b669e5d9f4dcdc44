/** Durable audit claims: leases, fencing tokens, and finalisation together with the audit append. */
module ClaimProtocol {
  import opened Outcomes
  import opened Text
  import opened JsonValues
  import opened AuditChain
  import opened AuditTrails

  // ---- The audit_idempotency table ---------------------------------------------------

  datatype Key = Key(run: string, kind: string)

  datatype ClaimStatus = Pending | Emitted

  datatype ClaimRow = ClaimRow(evidence: map<string, Json>, status: ClaimStatus, token: string, claimedAt: real)

  type Claims = map<Key, ClaimRow>

  datatype ClaimAnswer = Granted(token: string) | Refused | Conflict

  /** What one claim transaction does to the table and answers. */
  function Claim(claims: Claims, lease: nat, key: Key, evidence: map<string, Json>, token: string, now: real)
    : (Claims, ClaimAnswer)
  {
    if key !in claims then (claims[key := ClaimRow(evidence, Pending, token, now)], Granted(token))
    else
      var row := claims[key];
      if row.evidence != evidence then (claims, Conflict)
      else if row.status.Emitted? then (claims, Refused)
      else if row.token == token then (claims, Granted(token))
      else if now - row.claimedAt < lease as real then (claims, Refused)
      else (claims[key := row.(token := token, claimedAt := now)], Granted(token))
  }

  /** What one finalisation does: the audit append and the status change commit together. */
  function MarkWithAudit(env: Env, chain: Chain, claims: Claims, key: Key, token: string, e: AuditEvent)
    : Result<(Chain, Claims, bool), AuditError>
  {
    if key !in claims || !claims[key].status.Pending? || claims[key].token != token then Ok((chain, claims, false))
    else
      match TryAppend(env, chain, e)
      case Err(error) => Err(error)
      case Ok(extended) => Ok((extended, claims[key := claims[key].(status := Emitted)], true))
  }

  datatype CallError = MissingRunId | MissingEventType | MissingToken

  /** Whether both stores are on shared SQL, and then whether on one database. */
  datatype Pairing = NotShared | TwoDatabases | OneDatabase

  datatype FinaliseError =
    | BadCall(call: CallError)
    | NeedsSharedStores
    | DifferentDatabases
    | AuditFailed(audit: AuditError)

  /** The first blank argument. */
  function FirstMissing(runId: string, eventType: string, claimToken: string): Option<CallError> {
    if Blank(runId) then Some(MissingRunId)
    else if Blank(eventType) then Some(MissingEventType)
    else if Blank(claimToken) then Some(MissingToken)
    else None
  }

  method CheckArguments(runId: string, eventType: string, claimToken: string) returns (missing: Option<CallError>)
    ensures missing == FirstMissing(runId, eventType, claimToken)
    ensures missing == Some(MissingRunId) <==> Blank(runId)
    ensures missing == Some(MissingEventType) <==> !Blank(runId) && Blank(eventType)
    ensures missing == Some(MissingToken) <==> !Blank(runId) && !Blank(eventType) && Blank(claimToken)
  {
    StripFacts(runId);
    StripFacts(eventType);
    StripFacts(claimToken);
    if Strip(runId) == "" { return Some(MissingRunId); }
    if Strip(eventType) == "" { return Some(MissingEventType); }
    if Strip(claimToken) == "" { return Some(MissingToken); }
    missing := None;
  }

  /** The row is pending under this token. */
  predicate HeldUnder(claims: Claims, key: Key, token: string) {
    key in claims && claims[key].status.Pending? && claims[key].token == token
  }

  /** The row agrees, but its event is emitted, or another token holds it within its lease. */
  predicate Denied(claims: Claims, lease: nat, key: Key, evidence: map<string, Json>, token: string, now: real) {
    && key in claims && claims[key].evidence == evidence
    && (claims[key].status.Emitted? || (claims[key].token != token && now < claims[key].claimedAt + lease as real))
  }

  /** The row's evidence is not what is claimed. */
  predicate Disagrees(claims: Claims, key: Key, evidence: map<string, Json>) {
    key in claims && claims[key].evidence != evidence
  }

  /** PersistentAuditIdempotencyStore over one database; lease_seconds is clamped to at least one. */
  class PersistentAuditIdempotencyStore {
    const lease: nat
    var rows: Claims

    constructor (leaseSeconds: int)
      ensures lease >= 1 && (leaseSeconds >= 1 ==> lease == leaseSeconds)
      ensures rows == map[]
    {
      lease := if leaseSeconds < 1 then 1 else leaseSeconds;
      rows := map[];
    }

    /** Legacy SQLite: read under BEGIN IMMEDIATE, insert when absent. */
    method ClaimReadThenInsert(key: Key, evidence: map<string, Json>, token: string, now: real)
      returns (answer: ClaimAnswer)
      modifies this
      ensures (rows, answer) == Claim(old(rows), lease, key, evidence, token, now)
      ensures answer.Conflict? <==> key in old(rows) && old(rows)[key].evidence != evidence
      ensures answer.Refused? <==>
                && key in old(rows) && old(rows)[key].evidence == evidence
                && (old(rows)[key].status.Emitted?
                    || (old(rows)[key].token != token && now < old(rows)[key].claimedAt + lease as real))
    {
      if key !in rows {
        rows := rows[key := ClaimRow(evidence, Pending, token, now)];
        return Granted(token);
      }
      var row := rows[key];
      if row.evidence != evidence { return Conflict; }
      if row.status == Emitted { return Refused; }
      if row.token == token { return Granted(token); }
      if now - row.claimedAt < lease as real { return Refused; }
      rows := rows[key := ClaimRow(row.evidence, Pending, token, now)];
      answer := Granted(token);
    }

    /** Shared SQL: insert-or-ignore a pending row first, then read whatever row is there. */
    method ClaimInsertThenRead(key: Key, evidence: map<string, Json>, token: string, now: real)
      returns (answer: ClaimAnswer)
      modifies this
      ensures (rows, answer) == Claim(old(rows), lease, key, evidence, token, now)
      ensures answer.Conflict? <==> key in old(rows) && old(rows)[key].evidence != evidence
      ensures answer.Refused? <==>
                && key in old(rows) && old(rows)[key].evidence == evidence
                && (old(rows)[key].status.Emitted?
                    || (old(rows)[key].token != token && now < old(rows)[key].claimedAt + lease as real))
    {
      var saved := rows;
      if key !in rows {
        rows := rows[key := ClaimRow(evidence, Pending, token, now)];
      }
      var row := rows[key];
      if row.evidence != evidence {
        rows := saved;
        return Conflict;
      }
      if row.status == Emitted { return Refused; }
      if row.token == token { return Granted(token); }
      if now - row.claimedAt < lease as real { return Refused; }
      rows := rows[key := row.(token := token, claimedAt := now, status := Pending)];
      answer := Granted(token);
    }

    /** claim: strips both identifiers and refuses empty ones before touching the table. */
    method ClaimEvent(runId: string, eventType: string, evidence: map<string, Json>, token: string, now: real,
                      shared: bool)
      returns (r: Result<ClaimAnswer, CallError>)
      modifies this
      ensures Blank(runId) ==> r == Err(MissingRunId)
      ensures !Blank(runId) && Blank(eventType) ==> r == Err(MissingEventType)
      ensures r.Err? ==> rows == old(rows)
      ensures r.Ok? ==> var key := Key(Strip(runId), Strip(eventType));
                        && (r.value.Conflict? <==> Disagrees(old(rows), key, evidence))
                        && (r.value.Refused? <==> Denied(old(rows), lease, key, evidence, token, now))
      ensures !Blank(runId) && !Blank(eventType) ==>
                r.Ok? && (rows, r.value)
                         == Claim(old(rows), lease, Key(Strip(runId), Strip(eventType)), evidence, token, now)
    {
      StripFacts(runId);
      StripFacts(eventType);
      var key := Key(Strip(runId), Strip(eventType));
      if key.run == "" { return Err(MissingRunId); }
      if key.kind == "" { return Err(MissingEventType); }
      var answer;
      if shared {
        answer := ClaimInsertThenRead(key, evidence, token, now);
      } else {
        answer := ClaimReadThenInsert(key, evidence, token, now);
      }
      r := Ok(answer);
    }

    /** The token-fenced UPDATE; true when it changed a row. */
    method MarkRow(key: Key, token: string) returns (marked: bool)
      modifies this
      ensures marked <==> HeldUnder(old(rows), key, token)
      ensures rows == if marked then old(rows)[key := old(rows)[key].(status := Emitted)] else old(rows)
    {
      marked := key in rows && rows[key].status.Pending? && rows[key].token == token;
      if marked {
        rows := rows[key := rows[key].(status := Emitted)];
      }
    }

    /** mark_emitted: strips all three arguments and refuses empty ones before touching the table. */
    method MarkEmitted(runId: string, eventType: string, claimToken: string) returns (r: Result<bool, CallError>)
      modifies this
      ensures r.Err? <==> Blank(runId) || Blank(eventType) || Blank(claimToken)
      ensures r.Err? <==> FirstMissing(runId, eventType, claimToken).Some?
      ensures r.Err? ==> Some(r.error) == FirstMissing(runId, eventType, claimToken) && rows == old(rows)
      ensures r.Ok? ==>
                var key := Key(Strip(runId), Strip(eventType));
                && (r.value <==> HeldUnder(old(rows), key, Strip(claimToken)))
                && rows == if r.value then old(rows)[key := old(rows)[key].(status := Emitted)] else old(rows)
    {
      var missing := CheckArguments(runId, eventType, claimToken);
      if missing.Some? { return Err(missing.value); }
      var marked := MarkRow(Key(Strip(runId), Strip(eventType)), Strip(claimToken));
      r := Ok(marked);
    }

    /** _mark_emitted_with_audit_locked: append and finalise in one transaction; an exception undoes both. */
    method MarkWithAuditLocked(key: Key, token: string, trail: PersistentAuditTrail, e: AuditEvent)
      returns (r: Result<bool, AuditError>)
      modifies this, trail
      ensures match MarkWithAudit(trail.env, old(trail.Contents()), old(rows), key, token, e)
              case Ok((chain, claims, marked)) => r == Ok(marked) && trail.Contents() == chain && rows == claims
              case Err(error) => r == Err(error) && trail.Contents() == old(trail.Contents()) && rows == old(rows)
      ensures r == Ok(false) <==> !HeldUnder(old(rows), key, token)
      ensures r == Ok(true) ==> rows == old(rows)[key := old(rows)[key].(status := Emitted)]
      ensures r == Ok(true) ==> |trail.rows| == |old(trail.rows)| + 1 && Says(trail.rows[|old(trail.rows)|], e)
    {
      if key !in rows { return Ok(false); }
      if rows[key].status != Pending || rows[key].token != token { return Ok(false); }
      var appended := trail.Record(e);
      if appended.Err? { return Err(appended.error); }
      var marked := MarkRow(key, token);
      assert marked;
      r := Ok(true);
    }

    /** mark_emitted_with_audit: the arguments are checked as by mark_emitted, then that both stores are on
        shared SQL and on the same database; nothing is touched where one of these checks fails. */
    method MarkEmittedWithAudit(runId: string, eventType: string, claimToken: string, stores: Pairing,
                                trail: PersistentAuditTrail, e: AuditEvent) returns (r: Result<bool, FinaliseError>)
      modifies this, trail
      ensures FirstMissing(runId, eventType, claimToken).Some? ==>
                r == Err(BadCall(FirstMissing(runId, eventType, claimToken).value))
      ensures FirstMissing(runId, eventType, claimToken).None? && !stores.OneDatabase? ==>
                r == Err(if stores.NotShared? then NeedsSharedStores else DifferentDatabases)
      ensures FirstMissing(runId, eventType, claimToken).Some? || !stores.OneDatabase? ==>
                trail.Contents() == old(trail.Contents()) && rows == old(rows)
      ensures FirstMissing(runId, eventType, claimToken).None? && stores.OneDatabase? ==>
                match MarkWithAudit(trail.env, old(trail.Contents()), old(rows), Key(Strip(runId), Strip(eventType)),
                                    Strip(claimToken), e)
                case Ok((chain, claims, marked)) => r == Ok(marked) && trail.Contents() == chain && rows == claims
                case Err(error) =>
                  r == Err(AuditFailed(error)) && trail.Contents() == old(trail.Contents()) && rows == old(rows)
      ensures r.Ok? ==>
                && !Blank(runId) && !Blank(eventType) && !Blank(claimToken) && stores.OneDatabase?
                && (r.value <==> HeldUnder(old(rows), Key(Strip(runId), Strip(eventType)), Strip(claimToken)))
                && (r.value ==> |trail.rows| == |old(trail.rows)| + 1 && Says(trail.rows[|old(trail.rows)|], e))
    {
      var missing := CheckArguments(runId, eventType, claimToken);
      if missing.Some? { return Err(BadCall(missing.value)); }
      if stores == NotShared { return Err(NeedsSharedStores); }
      if stores == TwoDatabases { return Err(DifferentDatabases); }
      var marked := MarkWithAuditLocked(Key(Strip(runId), Strip(eventType)), Strip(claimToken), trail, e);
      r := if marked.Ok? then Ok(marked.value) else Err(AuditFailed(marked.error));
    }
  }

  // ---- Bridge events in the log -----------------------------------------------------

  const BRIDGE_EVENTS: set<string> :=
    {"autonomous_run_failed", "autonomous_run_recovery_completed", "recovery_failed", "recovery_completed"}

  /** The claim key a logged event belongs to: its name and the run_id in its details. */
  function KeyOf(name: Option<Json>, details: Option<Json>): Option<Key> {
    if name.Some? && name.value.Str? && name.value.s in BRIDGE_EVENTS
       && details.Some? && details.value.Obj? && "run_id" in details.value.fields
       && details.value.fields["run_id"].Str?
    then Some(Key(details.value.fields["run_id"].s, name.value.s))
    else None
  }

  function BridgeKey(row: AuditRow): Option<Key> {
    if row.json.Decoded? && row.json.value.Obj? then
      KeyOf(Get(row.json.value.fields, "event"), Get(row.json.value.fields, "details"))
    else None
  }

  function Details(row: AuditRow): map<string, Json> {
    if row.json.Decoded? && row.json.value.Obj? then SubObject(row.json.value.fields, "details") else map[]
  }

  function CountKey(rows: seq<AuditRow>, key: Key): nat {
    if rows == [] then 0
    else CountKey(rows[..|rows| - 1], key) + if BridgeKey(rows[|rows| - 1]) == Some(key) then 1 else 0
  }

  /** What a worker records for a claim: the key's event, with the claimed evidence as details. */
  predicate Reports(e: AuditEvent, key: Key, evidence: map<string, Json>) {
    e.event == key.kind && e.details == evidence
  }

  predicate BelongsTo(evidence: map<string, Json>, key: Key) {
    key.kind in BRIDGE_EVENTS && Get(evidence, "run_id") == Some(Str(key.run))
  }

  lemma LoggedKey(row: AuditRow, e: AuditEvent)
    requires row.json == Decoded(EventJson(e))
    ensures BridgeKey(row) == KeyOf(Some(Str(e.event)), Some(Obj(e.details)))
    ensures Details(row) == e.details
  {
  }

  lemma AppendCounts(rows: seq<AuditRow>, row: AuditRow)
    ensures forall k :: CountKey(rows + [row], k) == CountKey(rows, k) + if BridgeKey(row) == Some(k) then 1 else 0
  {
    assert (rows + [row])[..|rows|] == rows;
  }

  // ---- Shared mode as a transition system -------------------------------------------

  /** A worker between its claim and its finalisation. */
  datatype Grant = Grant(key: Key, evidence: map<string, Json>, token: string)

  /** The database, the workers that hold a grant, and every token ever drawn. */
  datatype Shared = Shared(chain: Chain, claims: Claims, holding: map<nat, Grant>, issued: set<string>)

  /** One transaction by some worker, or a crash between transactions. `now` is whatever the
      worker's clock said: nothing relates it to any other reading. */
  datatype Step =
    | ClaimStep(worker: nat, key: Key, evidence: map<string, Json>, token: string, now: real)
    | Finalise(worker: nat, e: AuditEvent)
    | Crash(worker: nat)
    | Unrelated(e: AuditEvent)

  predicate Enabled(s: Shared, step: Step) {
    match step
    case ClaimStep(worker, key, evidence, token, _) =>
      worker !in s.holding && token !in s.issued && BelongsTo(evidence, key)
    case Finalise(worker, e) =>
      worker in s.holding && Reports(e, s.holding[worker].key, s.holding[worker].evidence)
    case Crash(worker) => worker in s.holding
    case Unrelated(e) => e.event !in BRIDGE_EVENTS
  }

  function Next(env: Env, lease: nat, s: Shared, step: Step): Shared
    requires Enabled(s, step)
  {
    match step
    case ClaimStep(worker, key, evidence, token, now) =>
      var (claims, answer) := Claim(s.claims, lease, key, evidence, token, now);
      s.(claims := claims, issued := s.issued + {token},
         holding := if answer.Granted? then s.holding[worker := Grant(key, evidence, token)] else s.holding)
    case Finalise(worker, e) =>
      var grant := s.holding[worker];
      var r := MarkWithAudit(env, s.chain, s.claims, grant.key, grant.token, e);
      var released := s.(holding := s.holding - {worker});
      if r.Ok? then released.(chain := r.value.0, claims := r.value.1) else released
    case Crash(worker) => s.(holding := s.holding - {worker})
    case Unrelated(e) =>
      var r := TryAppend(env, s.chain, e);
      if r.Ok? then s.(chain := r.value) else s
  }

  /** Any run; a step that is not enabled does not happen. */
  function Exec(env: Env, lease: nat, s: Shared, steps: seq<Step>): Shared
    decreases |steps|
  {
    if steps == [] then s
    else Exec(env, lease, if Enabled(s, steps[0]) then Next(env, lease, s, steps[0]) else s, steps[1..])
  }

  ghost predicate TokensIssued(s: Shared) {
    forall k :: k in s.claims ==> s.claims[k].token in s.issued
  }

  /** A good log, no workers yet, and whatever claims are in the table, under tokens drawn before. */
  ghost predicate Start(s: Shared) {
    HeadOk(s.chain) && s.holding == map[] && TokensIssued(s)
  }

  /** As migrations leave it: no claims, and a log without bridge events. */
  ghost predicate Unused(s: Shared) {
    Start(s) && s.claims == map[] && forall k :: CountKey(s.chain.rows, k) == 0
  }

  predicate IsEmitted(claims: Claims, key: Key) {
    key in claims && claims[key].status.Emitted?
  }

  /** From one state of log and table to another, a key gained one event exactly when its row turned
      emitted, and none otherwise; no emitted row went back. */
  ghost predicate OneEventPerEmission(rows0: seq<AuditRow>, claims0: Claims, rows: seq<AuditRow>, claims: Claims) {
    && (forall k :: CountKey(rows, k)
                    == CountKey(rows0, k) + if IsEmitted(claims, k) && !IsEmitted(claims0, k) then 1 else 0)
    && (forall k :: IsEmitted(claims0, k) ==> IsEmitted(claims, k))
  }

  /** Every event from position `first` on carries the evidence its row stores. */
  ghost predicate EventsCarryStoredEvidence(first: nat, rows: seq<AuditRow>, claims: Claims) {
    forall i :: first <= i < |rows| && BridgeKey(rows[i]).Some? ==>
      && BridgeKey(rows[i]).value in claims
      && Details(rows[i]) == claims[BridgeKey(rows[i]).value].evidence
  }

  ghost predicate HoldersOk(s: Shared) {
    && (forall w :: w in s.holding ==>
          && s.holding[w].token in s.issued
          && s.holding[w].key in s.claims
          && s.claims[s.holding[w].key].evidence == s.holding[w].evidence
          && BelongsTo(s.holding[w].evidence, s.holding[w].key))
    && (forall v, w :: v in s.holding && w in s.holding && v != w ==> s.holding[v].token != s.holding[w].token)
  }

  /** What holds of a state reached from `o`. */
  ghost predicate Inv(o: Shared, s: Shared) {
    && HeadOk(s.chain)
    && OneEventPerEmission(o.chain.rows, o.claims, s.chain.rows, s.claims)
    && EventsCarryStoredEvidence(|o.chain.rows|, s.chain.rows, s.claims)
    && |o.chain.rows| <= |s.chain.rows|
    && TokensIssued(s)
    && HoldersOk(s)
  }

  /** What no step ever undoes: the log grows by rows that recompute, tokens stay drawn, evidence stays
      as claimed and emitted rows as they are. */
  ghost predicate Grows(env: Env, s: Shared, t: Shared) {
    && GrownFrom(env, s.chain.rows, t.chain.rows)
    && s.issued <= t.issued
    && forall k :: k in s.claims ==>
         && k in t.claims && t.claims[k].evidence == s.claims[k].evidence
         && (s.claims[k].status.Emitted? ==> t.claims[k] == s.claims[k])
  }

  /** Three answers, each exactly where it belongs: a conflict for a row with other evidence, a refusal for an
      emitted or leased one, and otherwise a grant, which writes the row afresh unless the token holds it. */
  lemma ClaimAnswers(claims: Claims, lease: nat, key: Key, evidence: map<string, Json>, token: string, now: real)
    ensures var (after, answer) := Claim(claims, lease, key, evidence, token, now);
            && (answer.Conflict? <==> Disagrees(claims, key, evidence))
            && (answer.Refused? <==> Denied(claims, lease, key, evidence, token, now))
            && (answer.Granted? ==> answer.token == token)
            && var written := answer.Granted? && !(key in claims && claims[key].token == token);
            && (written ==>
                  && after.Keys == claims.Keys + {key} && after[key].claimedAt == now && after[key].token == token
                  && after[key].evidence == evidence && after[key].status.Pending?)
            && (forall k :: k in claims && (k != key || !written) ==> k in after && after[k] == claims[k])
            && (!written ==> after.Keys == claims.Keys)
  {
  }

  /** A finalisation answers true exactly when the row is pending under the token and the append succeeds; it
      then adds the append's row and turns that one row emitted. It answers false, or fails with the append's
      error, without touching anything. */
  lemma FinalisationAnswers(env: Env, chain: Chain, claims: Claims, key: Key, token: string, e: AuditEvent)
    ensures var (r, appended) := (MarkWithAudit(env, chain, claims, key, token, e), TryAppend(env, chain, e));
            && (r == Ok((chain, claims, false)) <==> !HeldUnder(claims, key, token))
            && (r.Err? <==> HeldUnder(claims, key, token) && appended.Err?)
            && (r.Err? ==> r.error == appended.error)
            && (r.Ok? && r.value.2 ==>
                  && HeldUnder(claims, key, token) && appended == Ok(r.value.0) && r.value.1.Keys == claims.Keys
                  && (forall k :: k in claims && k != key ==> r.value.1[k] == claims[k])
                  && r.value.1[key].status.Emitted? && r.value.1[key].(status := Pending) == claims[key])
            && (r.Ok? && !r.value.2 ==> !HeldUnder(claims, key, token))
  {
  }

  /** A claim touches its own key only; it never changes evidence, never makes or unmakes an emitted
      row, and grants exactly when it leaves the row pending under the new token. */
  lemma ClaimContract(claims: Claims, lease: nat, key: Key, evidence: map<string, Json>, token: string, now: real)
    ensures var (after, answer) := Claim(claims, lease, key, evidence, token, now);
            && (forall k :: k in after ==> k in claims || (k == key && after[k].evidence == evidence))
            && (forall k :: k in claims ==>
                  && k in after && after[k].evidence == claims[k].evidence && after[k].status == claims[k].status
                  && (k != key || claims[k].status.Emitted? ==> after[k] == claims[k]))
            && (forall k :: k in after && k !in claims ==> after[k].status.Pending?)
            && (forall k :: k in after ==>
                  after[k].token == token || (k in claims && after[k].token == claims[k].token))
            && (answer.Granted? ==> answer.token == token && key in after && after[key].evidence == evidence
                                    && after[key].status.Pending? && after[key].token == token)
            && (!answer.Granted? ==> after == claims)
    ensures Claim(claims, lease, key, evidence, token, now).1.Granted? <==>
              key in claims ==>
                && claims[key].evidence == evidence && claims[key].status.Pending?
                && (claims[key].token == token || now >= claims[key].claimedAt + lease as real)
  {
  }

  lemma ClaimKeepsHolders(lease: nat, s: Shared, t: Shared, step: Step)
    requires step.ClaimStep? && Enabled(s, step) && HoldersOk(s)
    requires var (claims, answer) := Claim(s.claims, lease, step.key, step.evidence, step.token, step.now);
             t == s.(claims := claims, issued := s.issued + {step.token},
                     holding := if answer.Granted?
                                then s.holding[step.worker := Grant(step.key, step.evidence, step.token)]
                                else s.holding)
    ensures HoldersOk(t)
  {
    ClaimContract(s.claims, lease, step.key, step.evidence, step.token, step.now);
    forall w | w in t.holding
      ensures t.holding[w].token in t.issued && t.holding[w].key in t.claims
      ensures t.claims[t.holding[w].key].evidence == t.holding[w].evidence
    {
      if w != step.worker { assert w in s.holding; }
    }
    forall v, w | v in t.holding && w in t.holding && v != w ensures t.holding[v].token != t.holding[w].token {
      if v == step.worker {
        assert s.holding[w].token in s.issued;
      } else if w == step.worker {
        assert s.holding[v].token in s.issued;
      } else {
        assert v in s.holding && w in s.holding;
      }
    }
  }

  lemma ClaimPreserves(env: Env, lease: nat, o: Shared, s: Shared, step: Step)
    requires Inv(o, s) && step.ClaimStep? && Enabled(s, step)
    ensures Inv(o, Next(env, lease, s, step)) && Grows(env, s, Next(env, lease, s, step))
  {
    var t := Next(env, lease, s, step);
    ClaimContract(s.claims, lease, step.key, step.evidence, step.token, step.now);
    ClaimKeepsHolders(lease, s, t, step);
    assert t.chain == s.chain;
    forall k ensures IsEmitted(t.claims, k) <==> IsEmitted(s.claims, k) {}
    forall k | k in t.claims ensures t.claims[k].token in t.issued {
      if k in s.claims { assert s.claims[k].token in s.issued; }
    }
  }

  lemma UnrelatedRow(env: Env, chain: Chain, e: AuditEvent)
    requires HeadOk(chain) && e.event !in BRIDGE_EVENTS && TryAppend(env, chain, e).Ok?
    ensures var extended := TryAppend(env, chain, e).value;
            && HeadOk(extended) && GrownFrom(env, chain.rows, extended.rows) && |extended.rows| == |chain.rows| + 1
            && BridgeKey(extended.rows[|chain.rows|]).None?
            && forall k :: CountKey(extended.rows, k) == CountKey(chain.rows, k)
  {
    AppendKeepsHead(env, chain, e);
    var row := TryAppend(env, chain, e).value.rows[|chain.rows|];
    LoggedKey(row, e);
    AppendCounts(chain.rows, row);
  }

  lemma UnrelatedStep(env: Env, o: Shared, s: Shared, t: Shared)
    requires Inv(o, s) && t == s.(chain := t.chain) && HeadOk(t.chain)
    requires GrownFrom(env, s.chain.rows, t.chain.rows) && |t.chain.rows| == |s.chain.rows| + 1
    requires BridgeKey(t.chain.rows[|s.chain.rows|]).None?
    requires forall k :: CountKey(t.chain.rows, k) == CountKey(s.chain.rows, k)
    ensures Inv(o, t) && Grows(env, s, t)
  {
    forall i | |o.chain.rows| <= i < |t.chain.rows| && BridgeKey(t.chain.rows[i]).Some?
      ensures BridgeKey(t.chain.rows[i]).value in t.claims
      ensures Details(t.chain.rows[i]) == t.claims[BridgeKey(t.chain.rows[i]).value].evidence
    {
      assert i < |s.chain.rows| && t.chain.rows[i] == s.chain.rows[i];
    }
  }

  lemma UnrelatedPreserves(env: Env, o: Shared, s: Shared, e: AuditEvent)
    requires Inv(o, s) && e.event !in BRIDGE_EVENTS && TryAppend(env, s.chain, e).Ok?
    ensures var t := s.(chain := TryAppend(env, s.chain, e).value); Inv(o, t) && Grows(env, s, t)
  {
    UnrelatedRow(env, s.chain, e);
    UnrelatedStep(env, o, s, s.(chain := TryAppend(env, s.chain, e).value));
  }

  /** One more row for pending `key`, now emitted. */
  lemma EmittedRow(rows0: seq<AuditRow>, claims0: Claims, rows: seq<AuditRow>, row: AuditRow, claims: Claims, key: Key)
    requires OneEventPerEmission(rows0, claims0, rows, claims) && |rows0| <= |rows|
    requires EventsCarryStoredEvidence(|rows0|, rows, claims)
    requires key in claims && claims[key].status.Pending?
    requires BridgeKey(row) == Some(key) && Details(row) == claims[key].evidence
    ensures var after := claims[key := claims[key].(status := Emitted)];
            && OneEventPerEmission(rows0, claims0, rows + [row], after)
            && EventsCarryStoredEvidence(|rows0|, rows + [row], after)
  {
    var after := claims[key := claims[key].(status := Emitted)];
    AppendCounts(rows, row);
    assert !IsEmitted(claims, key) && !IsEmitted(claims0, key);
    forall k ensures IsEmitted(after, k) <==> IsEmitted(claims, k) || k == key {}
  }

  /** Appending the event that reports a claim adds one row under that claim's key. */
  lemma ReportedRow(env: Env, chain: Chain, key: Key, evidence: map<string, Json>, e: AuditEvent)
    requires HeadOk(chain) && BelongsTo(evidence, key) && Reports(e, key, evidence) && TryAppend(env, chain, e).Ok?
    ensures var extended := TryAppend(env, chain, e).value;
            && HeadOk(extended) && GrownFrom(env, chain.rows, extended.rows) && |extended.rows| == |chain.rows| + 1
            && var row := extended.rows[|chain.rows|];
            && extended.rows == chain.rows + [row] && BridgeKey(row) == Some(key) && Details(row) == evidence
  {
    AppendKeepsHead(env, chain, e);
    var row := TryAppend(env, chain, e).value.rows[|chain.rows|];
    LoggedKey(row, e);
  }

  lemma ReleaseKeepsHolders(s: Shared, worker: nat)
    requires HoldersOk(s)
    ensures HoldersOk(s.(holding := s.holding - {worker}))
  {
  }

  /** Marking a row emitted leaves tokens and evidence alone. */
  lemma EmittedKeepsHolders(s: Shared, t: Shared, key: Key)
    requires HoldersOk(s) && TokensIssued(s) && key in s.claims && t.holding == s.holding && t.issued == s.issued
    requires t.claims == s.claims[key := s.claims[key].(status := Emitted)]
    ensures HoldersOk(t) && TokensIssued(t)
  {
  }

  lemma EmitStep(env: Env, o: Shared, s: Shared, t: Shared, key: Key)
    requires Inv(o, s) && key in s.claims && s.claims[key].status.Pending? && HeadOk(t.chain)
    requires t == s.(chain := t.chain, claims := s.claims[key := s.claims[key].(status := Emitted)])
    requires GrownFrom(env, s.chain.rows, t.chain.rows)
    requires |t.chain.rows| == |s.chain.rows| + 1 && t.chain.rows == s.chain.rows + [t.chain.rows[|s.chain.rows|]]
    requires BridgeKey(t.chain.rows[|s.chain.rows|]) == Some(key)
    requires Details(t.chain.rows[|s.chain.rows|]) == s.claims[key].evidence
    ensures Inv(o, t) && Grows(env, s, t)
  {
    EmittedRow(o.chain.rows, o.claims, s.chain.rows, t.chain.rows[|s.chain.rows|], s.claims, key);
    EmittedKeepsHolders(s, t, key);
  }

  lemma FinalisePreserves(env: Env, lease: nat, o: Shared, s: Shared, step: Step)
    requires Inv(o, s) && step.Finalise? && Enabled(s, step)
    ensures Inv(o, Next(env, lease, s, step)) && Grows(env, s, Next(env, lease, s, step))
  {
    var (grant, t) := (s.holding[step.worker], Next(env, lease, s, step));
    var (row, appended) := (s.claims[grant.key], TryAppend(env, s.chain, step.e));
    var released := s.(holding := s.holding - {step.worker});
    ReleaseKeepsHolders(s, step.worker);
    if row.status.Pending? && row.token == grant.token && appended.Ok? {
      ReportedRow(env, s.chain, grant.key, row.evidence, step.e);
      assert t == released.(chain := appended.value, claims := s.claims[grant.key := row.(status := Emitted)]);
      EmitStep(env, o, released, t, grant.key);
    } else {
      assert t == released;
    }
  }

  lemma StepPreserves(env: Env, lease: nat, o: Shared, s: Shared, step: Step)
    requires Inv(o, s) && Enabled(s, step)
    ensures Inv(o, Next(env, lease, s, step)) && Grows(env, s, Next(env, lease, s, step))
  {
    match step {
      case ClaimStep(_, _, _, _, _) => ClaimPreserves(env, lease, o, s, step);
      case Finalise(_, _) => FinalisePreserves(env, lease, o, s, step);
      case Unrelated(e) => if TryAppend(env, s.chain, e).Ok? { UnrelatedPreserves(env, o, s, e); }
      case Crash(worker) => ReleaseKeepsHolders(s, worker);
    }
  }

  lemma GrowthChains(env: Env, s: Shared, t: Shared, u: Shared)
    requires Grows(env, s, t) && Grows(env, t, u)
    ensures Grows(env, s, u)
  {
    GrownChains(env, s.chain.rows, t.chain.rows, u.chain.rows);
  }

  lemma {:induction false} RunPreserves(env: Env, lease: nat, o: Shared, s: Shared, steps: seq<Step>)
    requires Inv(o, s)
    ensures Inv(o, Exec(env, lease, s, steps)) && Grows(env, s, Exec(env, lease, s, steps))
    decreases |steps|
  {
    if steps != [] {
      var t := if Enabled(s, steps[0]) then Next(env, lease, s, steps[0]) else s;
      if Enabled(s, steps[0]) { StepPreserves(env, lease, o, s, steps[0]); }
      RunPreserves(env, lease, o, t, steps[1..]);
      GrowthChains(env, s, t, Exec(env, lease, t, steps[1..]));
    }
  }

  lemma StartIsGood(s: Shared)
    requires Start(s)
    ensures Inv(s, s)
  {
  }

  lemma {:induction false} CountIsPositive(rows: seq<AuditRow>, i: nat, key: Key)
    requires i < |rows| && BridgeKey(rows[i]) == Some(key)
    ensures CountKey(rows, key) >= 1
  {
    if i < |rows| - 1 { CountIsPositive(rows[..|rows| - 1], i, key); }
  }

  /** An unused log holds no bridge events at all. */
  lemma UnusedHasNoEvents(s: Shared, i: nat)
    requires Unused(s) && i < |s.chain.rows|
    ensures BridgeKey(s.chain.rows[i]).None?
  {
    if BridgeKey(s.chain.rows[i]).Some? {
      CountIsPositive(s.chain.rows, i, BridgeKey(s.chain.rows[i]).value);
    }
  }

  /** Exactly-once emission: from any state, one the importer has filled included, under every interleaving of
      claims, crashes, re-claims and late finalisations, with any clock readings, the log gains one event
      for a key exactly when its row turns emitted; that event carries the stored evidence and its link
      recomputes. */
  lemma ExactlyOncePerEmission(env: Env, lease: nat, s: Shared, steps: seq<Step>)
    requires Start(s)
    ensures var t := Exec(env, lease, s, steps);
            && HeadOk(t.chain) && GrownFrom(env, s.chain.rows, t.chain.rows)
            && OneEventPerEmission(s.chain.rows, s.claims, t.chain.rows, t.claims)
            && EventsCarryStoredEvidence(|s.chain.rows|, t.chain.rows, t.claims)
  {
    StartIsGood(s);
    RunPreserves(env, lease, s, s, steps);
  }

  /** So in a database used by this protocol alone the log holds one event for each emitted key and none
      for any other, every event carries the stored evidence, and the chain verifies if it did at first. */
  lemma ExactlyOnce(env: Env, lease: nat, s: Shared, steps: seq<Step>)
    requires Unused(s)
    ensures var t := Exec(env, lease, s, steps);
            && (forall k :: CountKey(t.chain.rows, k) == if IsEmitted(t.claims, k) then 1 else 0)
            && EventsCarryStoredEvidence(0, t.chain.rows, t.claims)
            && (Linked(env, t.chain.rows) <==> Linked(env, s.chain.rows))
  {
    ExactlyOncePerEmission(env, lease, s, steps);
    var t := Exec(env, lease, s, steps);
    GrownLinks(env, s.chain.rows, t.chain.rows);
    forall i | 0 <= i < |t.chain.rows| && BridgeKey(t.chain.rows[i]).Some?
      ensures BridgeKey(t.chain.rows[i]).value in t.claims
      ensures Details(t.chain.rows[i]) == t.claims[BridgeKey(t.chain.rows[i]).value].evidence
    {
      if i < |s.chain.rows| { UnusedHasNoEvents(s, i); }
    }
  }

  /** Once emitted, always emitted; evidence never changes; the log only grows. */
  lemma NothingIsUndone(env: Env, lease: nat, s: Shared, before: seq<Step>, after: seq<Step>)
    requires Start(s)
    ensures var t := Exec(env, lease, s, before); Grows(env, t, Exec(env, lease, t, after))
  {
    StartIsGood(s);
    RunPreserves(env, lease, s, s, before);
    RunPreserves(env, lease, s, Exec(env, lease, s, before), after);
  }

  /** What a step that makes `key` emitted must have been. */
  ghost predicate FinalisedByHolder(t: Shared, step: Step, key: Key) {
    && step.Finalise? && step.worker in t.holding && t.holding[step.worker].key == key
    && key in t.claims && t.claims[key].status.Pending? && t.claims[key].token == t.holding[step.worker].token
    && forall v :: v in t.holding && v != step.worker ==> t.holding[v].token != t.claims[key].token
  }

  lemma EmissionNeedsTheToken(env: Env, lease: nat, t: Shared, step: Step, key: Key)
    requires HoldersOk(t) && Enabled(t, step)
    requires key in Next(env, lease, t, step).claims && Next(env, lease, t, step).claims[key].status.Emitted?
    requires !(key in t.claims && t.claims[key].status.Emitted?)
    ensures FinalisedByHolder(t, step, key)
  {
    if step.ClaimStep? { ClaimContract(t.claims, lease, step.key, step.evidence, step.token, step.now); }
  }

  lemma StaleTokenChangesNothing(env: Env, lease: nat, t: Shared, step: Step)
    requires HoldersOk(t) && Enabled(t, step) && step.Finalise?
    requires t.claims[t.holding[step.worker].key].token != t.holding[step.worker].token
    ensures Next(env, lease, t, step) == t.(holding := t.holding - {step.worker})
  {
  }

  /** Fencing: a key becomes emitted only by a finalisation of the one worker whose token is the
      row's current one; a worker with any other token changes neither the log nor the table. */
  lemma OnlyTheCurrentHolderFinalises(env: Env, lease: nat, s: Shared, before: seq<Step>, step: Step, key: Key)
    requires Start(s)
    requires Enabled(Exec(env, lease, s, before), step)
    ensures var t := Exec(env, lease, s, before);
            var u := Next(env, lease, t, step);
            key in u.claims && u.claims[key].status.Emitted? && !(key in t.claims && t.claims[key].status.Emitted?) ==>
              FinalisedByHolder(t, step, key)
    ensures var t := Exec(env, lease, s, before);
            step.Finalise? && t.holding[step.worker].key in t.claims
            && t.claims[t.holding[step.worker].key].token != t.holding[step.worker].token ==>
              Next(env, lease, t, step) == t.(holding := t.holding - {step.worker})
  {
    StartIsGood(s);
    RunPreserves(env, lease, s, s, before);
    var t := Exec(env, lease, s, before);
    var u := Next(env, lease, t, step);
    if key in u.claims && u.claims[key].status.Emitted? && !(key in t.claims && t.claims[key].status.Emitted?) {
      EmissionNeedsTheToken(env, lease, t, step, key);
    }
    if step.Finalise? && t.claims[t.holding[step.worker].key].token != t.holding[step.worker].token {
      StaleTokenChangesNothing(env, lease, t, step);
    }
  }
}
