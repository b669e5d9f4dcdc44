/** Legacy mode: the audit append and mark_emitted are two steps, so emission is at least once,
    and the leases bound how often. */
module LegacyClaims {
  import opened Outcomes
  import opened JsonValues
  import opened AuditChain
  import opened ClaimProtocol

  /** Appending to the legacy table, which has no head row. */
  function LegacyAppend(env: Env, rows: seq<AuditRow>, e: AuditEvent): Option<seq<AuditRow>> {
    match TryAppend(env, Chain(rows, TailSequence(rows), TailHash(rows)), e)
    case Ok(c) => Some(c.rows)
    case Err(_) => None
  }

  datatype Progress = Progress(grant: Grant, recorded: bool)

  /** `grants` remembers the claimed_at of the row found for a key, if any, and of every grant made since. */
  datatype Legacy = Legacy(
    log: seq<AuditRow>, claims: Claims, holding: map<nat, Progress>, issued: set<string>,
    grants: map<Key, seq<real>>)

  datatype LegacyStep =
    | ClaimStep(worker: nat, key: Key, evidence: map<string, Json>, token: string, now: real)
    | RecordStep(worker: nat, e: AuditEvent)
    | MarkStep(worker: nat)
    | Crash(worker: nat)
    | Unrelated(e: AuditEvent)

  predicate Enabled(s: Legacy, step: LegacyStep) {
    match step
    case ClaimStep(worker, key, evidence, token, _) =>
      worker !in s.holding && token !in s.issued && BelongsTo(evidence, key)
    case RecordStep(worker, e) =>
      worker in s.holding && !s.holding[worker].recorded
      && Reports(e, s.holding[worker].grant.key, s.holding[worker].grant.evidence)
    case MarkStep(worker) => worker in s.holding && s.holding[worker].recorded
    case Crash(worker) => worker in s.holding
    case Unrelated(e) => e.event !in BRIDGE_EVENTS
  }

  function GrantsOf(grants: map<Key, seq<real>>, key: Key): seq<real> {
    if key in grants then grants[key] else []
  }

  function Next(env: Env, lease: nat, s: Legacy, step: LegacyStep): Legacy
    requires Enabled(s, step)
  {
    match step
    case ClaimStep(worker, key, evidence, token, now) =>
      var (claims, answer) := Claim(s.claims, lease, key, evidence, token, now);
      var t := s.(claims := claims, issued := s.issued + {token});
      if answer.Granted? then
        t.(holding := s.holding[worker := Progress(Grant(key, evidence, token), false)],
           grants := s.grants[key := GrantsOf(s.grants, key) + [now]])
      else t
    case RecordStep(worker, e) =>
      var appended := LegacyAppend(env, s.log, e);
      if appended.Some? then
        s.(log := appended.value, holding := s.holding[worker := s.holding[worker].(recorded := true)])
      else s.(holding := s.holding - {worker})
    case MarkStep(worker) =>
      var grant := s.holding[worker].grant;
      var current := grant.key in s.claims && s.claims[grant.key].status.Pending?
                     && s.claims[grant.key].token == grant.token;
      s.(holding := s.holding - {worker},
         claims := if current then s.claims[grant.key := s.claims[grant.key].(status := Emitted)] else s.claims)
    case Crash(worker) => s.(holding := s.holding - {worker})
    case Unrelated(e) =>
      var appended := LegacyAppend(env, s.log, e);
      if appended.Some? then s.(log := appended.value) else s
  }

  function Exec(env: Env, lease: nat, s: Legacy, steps: seq<LegacyStep>): Legacy
    decreases |steps|
  {
    if steps == [] then s
    else Exec(env, lease, if Enabled(s, steps[0]) then Next(env, lease, s, steps[0]) else s, steps[1..])
  }

  /** Any log and any table, no worker at work yet, and no token that will be drawn again. */
  ghost predicate Start(s: Legacy) {
    && s.holding == map[] && s.grants == (map k | k in s.claims :: [s.claims[k].claimedAt])
    && forall k :: k in s.claims ==> s.claims[k].token in s.issued
  }

  /** The events recorded for `key` since `o`. */
  function Recorded(o: Legacy, log: seq<AuditRow>, key: Key): int {
    CountKey(log, key) - CountKey(o.log, key)
  }

  predicate EmittedSince(o: Legacy, claims: Claims, key: Key)
    requires key in claims
  {
    claims[key].status.Emitted? && !(key in o.claims && o.claims[key].status.Emitted?)
  }

  /** The workers that hold a grant for `key` and have not yet recorded its event. */
  function Open(holding: map<nat, Progress>, key: Key): set<nat> {
    set w | w in holding && holding[w].grant.key == key && !holding[w].recorded
  }

  /** Consecutive grants lie at least one lease apart. */
  ghost predicate Spaced(times: seq<real>, lease: nat) {
    forall i :: 0 < i < |times| ==> times[i] - times[i - 1] >= lease as real
  }

  /** Every event recorded for a key, and every grant still to record one, is paid for by a grant. */
  predicate PaidFor(o: Legacy, log: seq<AuditRow>, holding: map<nat, Progress>, grants: map<Key, seq<real>>, k: Key) {
    && 0 <= Recorded(o, log, k)
    && Recorded(o, log, k) + |Open(holding, k)| <= |GrantsOf(grants, k)| - |GrantsOf(o.grants, k)|
  }

  ghost predicate Paid(o: Legacy, log: seq<AuditRow>, holding: map<nat, Progress>, grants: map<Key, seq<real>>) {
    forall k :: PaidFor(o, log, holding, grants, k)
  }

  ghost predicate ClaimOk(o: Legacy, s: Legacy, lease: nat, k: Key)
    requires k in s.claims
  {
    && k in s.grants && s.grants[k] != [] && Spaced(s.grants[k], lease)
    && s.grants[k][|s.grants[k]| - 1] == s.claims[k].claimedAt
    && s.claims[k].token in s.issued
    && (EmittedSince(o, s.claims, k) ==> Recorded(o, s.log, k) >= 1)
  }

  ghost predicate ClaimsOk(o: Legacy, s: Legacy, lease: nat) {
    forall k :: k in s.claims ==> ClaimOk(o, s, lease, k)
  }

  ghost predicate HoldersOk(o: Legacy, s: Legacy) {
    forall w :: w in s.holding ==>
      && s.holding[w].grant.key in s.claims
      && BelongsTo(s.holding[w].grant.evidence, s.holding[w].grant.key)
      && (s.holding[w].recorded ==> Recorded(o, s.log, s.holding[w].grant.key) >= 1)
  }

  ghost predicate Inv(lease: nat, o: Legacy, s: Legacy) {
    && s.grants.Keys == s.claims.Keys
    && ClaimsOk(o, s, lease) && HoldersOk(o, s) && Paid(o, s.log, s.holding, s.grants)
  }

  lemma OpenAfterGrant(holding: map<nat, Progress>, w: nat, grant: Grant)
    requires w !in holding
    ensures Open(holding[w := Progress(grant, false)], grant.key) == Open(holding, grant.key) + {w}
    ensures forall k :: k != grant.key ==> Open(holding[w := Progress(grant, false)], k) == Open(holding, k)
  {
  }

  lemma OpenAfterRecord(holding: map<nat, Progress>, w: nat)
    requires w in holding && !holding[w].recorded
    ensures var after := holding[w := holding[w].(recorded := true)];
            && Open(after, holding[w].grant.key) == Open(holding, holding[w].grant.key) - {w}
            && w in Open(holding, holding[w].grant.key)
            && forall k :: k != holding[w].grant.key ==> Open(after, k) == Open(holding, k)
  {
  }

  lemma OpenAfterRelease(holding: map<nat, Progress>, w: nat)
    ensures forall k :: |Open(holding - {w}, k)| <= |Open(holding, k)|
  {
    forall k ensures |Open(holding - {w}, k)| <= |Open(holding, k)| {
      assert Open(holding - {w}, k) == Open(holding, k) - {w};
    }
  }

  lemma LogGrows(env: Env, log: seq<AuditRow>, e: AuditEvent)
    requires LegacyAppend(env, log, e).Some?
    ensures forall k :: CountKey(LegacyAppend(env, log, e).value, k)
                        == CountKey(log, k)
                           + if KeyOf(Some(Str(e.event)), Some(Obj(e.details))) == Some(k) then 1 else 0
  {
    var rows := LegacyAppend(env, log, e).value;
    LoggedKey(rows[|log|], e);
    AppendCounts(log, rows[|log|]);
    assert rows == log + [rows[|log|]];
  }

  lemma SpacedAppended(times: seq<real>, now: real, lease: nat)
    requires times != [] && Spaced(times, lease) && now - times[|times| - 1] >= lease as real
    ensures Spaced(times + [now], lease)
  {
    forall i | 0 < i < |times| + 1
      ensures (times + [now])[i] - (times + [now])[i - 1] >= lease as real
    {
      if i < |times| { assert times[i] - times[i - 1] >= lease as real; }
    }
  }

  /** A grant under a fresh token writes its row at `now`, and over a pending row only a lease after it. */
  lemma FreshGrant(claims: Claims, lease: nat, step: LegacyStep)
    requires step.ClaimStep? && (step.key in claims ==> claims[step.key].token != step.token)
    requires Claim(claims, lease, step.key, step.evidence, step.token, step.now).1.Granted?
    ensures var after := Claim(claims, lease, step.key, step.evidence, step.token, step.now).0;
            && step.key in after && after == claims[step.key := ClaimRow(step.evidence, Pending, step.token, step.now)]
            && (step.key in claims ==>
                  claims[step.key].status.Pending? && step.now - claims[step.key].claimedAt >= lease as real)
  {
  }

  lemma GrantKeepsClaim(lease: nat, o: Legacy, s: Legacy, t: Legacy, key: Key, row: ClaimRow, k: Key)
    requires ClaimsOk(o, s, lease) && s.grants.Keys == s.claims.Keys && k in t.claims
    requires t.claims == s.claims[key := row] && row.status.Pending? && row.token in t.issued
    requires s.issued <= t.issued && t.log == s.log
    requires t.grants == s.grants[key := GrantsOf(s.grants, key) + [row.claimedAt]]
    requires key in s.claims ==> row.claimedAt - s.claims[key].claimedAt >= lease as real
    ensures ClaimOk(o, t, lease, k)
  {
    if k in s.claims {
      assert ClaimOk(o, s, lease, k);
      if k == key { SpacedAppended(s.grants[k], row.claimedAt, lease); }
    }
  }

  lemma GrantKeepsHolders(o: Legacy, s: Legacy, t: Legacy, worker: nat, grant: Grant)
    requires HoldersOk(o, s) && t.log == s.log && worker !in s.holding
    requires t.holding == s.holding[worker := Progress(grant, false)]
    requires grant.key in t.claims && BelongsTo(grant.evidence, grant.key)
    requires forall k :: k in s.claims ==> k in t.claims
    ensures HoldersOk(o, t)
  {
    forall w | w in t.holding
      ensures t.holding[w].grant.key in t.claims && BelongsTo(t.holding[w].grant.evidence, t.holding[w].grant.key)
      ensures t.holding[w].recorded ==> Recorded(o, t.log, t.holding[w].grant.key) >= 1
    {
      if w != worker { assert w in s.holding && t.holding[w] == s.holding[w]; }
    }
  }

  lemma GrantKeepsPaid(o: Legacy, s: Legacy, t: Legacy, worker: nat, grant: Grant, now: real)
    requires Paid(o, s.log, s.holding, s.grants) && t.log == s.log && worker !in s.holding
    requires t.holding == s.holding[worker := Progress(grant, false)]
    requires t.grants == s.grants[grant.key := GrantsOf(s.grants, grant.key) + [now]]
    ensures Paid(o, t.log, t.holding, t.grants)
  {
    OpenAfterGrant(s.holding, worker, grant);
    forall k ensures PaidFor(o, t.log, t.holding, t.grants, k) {
      assert PaidFor(o, s.log, s.holding, s.grants, k);
      if k != grant.key { assert GrantsOf(t.grants, k) == GrantsOf(s.grants, k); }
    }
  }

  lemma GrantKeepsAllHolders(lease: nat, o: Legacy, s: Legacy, t: Legacy, step: LegacyStep)
    requires HoldersOk(o, s) && step.ClaimStep? && step.worker !in s.holding && BelongsTo(step.evidence, step.key)
    requires (t.claims, Granted(step.token)) == Claim(s.claims, lease, step.key, step.evidence, step.token, step.now)
    requires t.holding == s.holding[step.worker := Progress(Grant(step.key, step.evidence, step.token), false)]
    requires t.log == s.log
    ensures HoldersOk(o, t)
  {
    ClaimContract(s.claims, lease, step.key, step.evidence, step.token, step.now);
    GrantKeepsHolders(o, s, t, step.worker, Grant(step.key, step.evidence, step.token));
  }

  lemma GrantKeepsClaims(lease: nat, o: Legacy, s: Legacy, t: Legacy, step: LegacyStep)
    requires ClaimsOk(o, s, lease) && s.grants.Keys == s.claims.Keys && step.ClaimStep?
    requires (t.claims, Granted(step.token)) == Claim(s.claims, lease, step.key, step.evidence, step.token, step.now)
    requires step.token !in s.issued && t.issued == s.issued + {step.token} && t.log == s.log
    requires t.grants == s.grants[step.key := GrantsOf(s.grants, step.key) + [step.now]]
    ensures ClaimsOk(o, t, lease) && t.grants.Keys == t.claims.Keys
  {
    if step.key in s.claims { assert ClaimOk(o, s, lease, step.key); }
    FreshGrant(s.claims, lease, step);
    forall k | k in t.claims ensures ClaimOk(o, t, lease, k) {
      GrantKeepsClaim(lease, o, s, t, step.key, ClaimRow(step.evidence, Pending, step.token, step.now), k);
    }
  }

  lemma GrantPreserves(lease: nat, o: Legacy, s: Legacy, t: Legacy, step: LegacyStep)
    requires Inv(lease, o, s) && step.ClaimStep? && Enabled(s, step)
    requires (t.claims, Granted(step.token)) == Claim(s.claims, lease, step.key, step.evidence, step.token, step.now)
    requires t.issued == s.issued + {step.token} && t.log == s.log
    requires t.holding == s.holding[step.worker := Progress(Grant(step.key, step.evidence, step.token), false)]
    requires t.grants == s.grants[step.key := GrantsOf(s.grants, step.key) + [step.now]]
    ensures Inv(lease, o, t)
  {
    GrantKeepsClaims(lease, o, s, t, step);
    GrantKeepsAllHolders(lease, o, s, t, step);
    GrantKeepsPaid(o, s, t, step.worker, Grant(step.key, step.evidence, step.token), step.now);
  }

  lemma ClaimPreserves(env: Env, lease: nat, o: Legacy, s: Legacy, step: LegacyStep)
    requires Inv(lease, o, s) && step.ClaimStep? && Enabled(s, step)
    ensures Inv(lease, o, Next(env, lease, s, step))
  {
    var t := Next(env, lease, s, step);
    var (claims, answer) := Claim(s.claims, lease, step.key, step.evidence, step.token, step.now);
    if answer.Granted? {
      assert answer == Granted(step.token);
      GrantPreserves(lease, o, s, t, step);
    } else {
      assert t == s.(issued := s.issued + {step.token});
    }
  }

  /** A holder's event is paid for by the grant it holds. */
  lemma RecordedIsPaid(o: Legacy, s: Legacy, worker: nat, log: seq<AuditRow>, key: Key)
    requires Paid(o, s.log, s.holding, s.grants) && worker in s.holding && !s.holding[worker].recorded
    requires key == s.holding[worker].grant.key
    requires forall k :: CountKey(log, k) == CountKey(s.log, k) + if k == key then 1 else 0
    ensures Paid(o, log, s.holding[worker := s.holding[worker].(recorded := true)], s.grants)
    ensures Recorded(o, log, key) >= 1
  {
    var holding := s.holding[worker := s.holding[worker].(recorded := true)];
    OpenAfterRecord(s.holding, worker);
    forall k ensures PaidFor(o, log, holding, s.grants, k) {
      assert PaidFor(o, s.log, s.holding, s.grants, k);
    }
    assert PaidFor(o, s.log, s.holding, s.grants, key);
  }

  lemma RecordCounts(env: Env, o: Legacy, s: Legacy, worker: nat, e: AuditEvent)
    requires HoldersOk(o, s) && Enabled(s, RecordStep(worker, e)) && LegacyAppend(env, s.log, e).Some?
    ensures forall k :: CountKey(LegacyAppend(env, s.log, e).value, k)
                        == CountKey(s.log, k) + if k == s.holding[worker].grant.key then 1 else 0
  {
    assert BelongsTo(s.holding[worker].grant.evidence, s.holding[worker].grant.key);
    LogGrows(env, s.log, e);
  }

  /** The log grew, each key's events are still paid for, and the holders are the same or fewer. */
  lemma LongerLogPreserves(lease: nat, o: Legacy, s: Legacy, t: Legacy)
    requires Inv(lease, o, s) && t == s.(log := t.log, holding := t.holding)
    requires Paid(o, t.log, t.holding, t.grants)
    requires forall k :: CountKey(t.log, k) >= CountKey(s.log, k)
    requires forall w :: w in t.holding ==>
               && w in s.holding && t.holding[w].grant == s.holding[w].grant
               && (t.holding[w].recorded && !s.holding[w].recorded ==> Recorded(o, t.log, t.holding[w].grant.key) >= 1)
    ensures Inv(lease, o, t)
  {
    forall w | w in t.holding && t.holding[w].recorded ensures Recorded(o, t.log, t.holding[w].grant.key) >= 1 {
      assert CountKey(t.log, t.holding[w].grant.key) >= CountKey(s.log, t.holding[w].grant.key);
    }
    forall k | k in t.claims && EmittedSince(o, t.claims, k) ensures Recorded(o, t.log, k) >= 1 {
      assert CountKey(t.log, k) >= CountKey(s.log, k);
    }
  }

  lemma ReleasePreserves(lease: nat, o: Legacy, s: Legacy, worker: nat)
    requires Inv(lease, o, s)
    ensures Inv(lease, o, s.(holding := s.holding - {worker}))
  {
    var t := s.(holding := s.holding - {worker});
    OpenAfterRelease(s.holding, worker);
    forall k ensures PaidFor(o, t.log, t.holding, t.grants, k) {
      assert PaidFor(o, s.log, s.holding, s.grants, k);
    }
    LongerLogPreserves(lease, o, s, t);
  }

  lemma RecordPreserves(env: Env, lease: nat, o: Legacy, s: Legacy, step: LegacyStep)
    requires Inv(lease, o, s) && step.RecordStep? && Enabled(s, step)
    ensures Inv(lease, o, Next(env, lease, s, step))
  {
    if LegacyAppend(env, s.log, step.e).Some? {
      RecordCounts(env, o, s, step.worker, step.e);
      RecordedIsPaid(o, s, step.worker, LegacyAppend(env, s.log, step.e).value, s.holding[step.worker].grant.key);
      LongerLogPreserves(lease, o, s, Next(env, lease, s, step));
    } else {
      ReleasePreserves(lease, o, s, step.worker);
    }
  }

  lemma UnrelatedPreserves(env: Env, lease: nat, o: Legacy, s: Legacy, step: LegacyStep)
    requires Inv(lease, o, s) && step.Unrelated? && Enabled(s, step)
    ensures Inv(lease, o, Next(env, lease, s, step))
  {
    if LegacyAppend(env, s.log, step.e).Some? {
      LogGrows(env, s.log, step.e);
      var t := s.(log := LegacyAppend(env, s.log, step.e).value);
      forall k ensures PaidFor(o, t.log, t.holding, t.grants, k) {
        assert PaidFor(o, s.log, s.holding, s.grants, k);
      }
      LongerLogPreserves(lease, o, s, t);
    }
  }

  lemma MarkedKeepsClaims(lease: nat, o: Legacy, s: Legacy, key: Key)
    requires ClaimsOk(o, s, lease) && key in s.claims && Recorded(o, s.log, key) >= 1
    ensures ClaimsOk(o, s.(claims := s.claims[key := s.claims[key].(status := Emitted)]), lease)
  {
    var t := s.(claims := s.claims[key := s.claims[key].(status := Emitted)]);
    forall k | k in t.claims ensures ClaimOk(o, t, lease, k) {
      assert ClaimOk(o, s, lease, k);
    }
  }

  lemma MarkedClaims(lease: nat, o: Legacy, s: Legacy, key: Key)
    requires Inv(lease, o, s) && key in s.claims && Recorded(o, s.log, key) >= 1
    ensures Inv(lease, o, s.(claims := s.claims[key := s.claims[key].(status := Emitted)]))
  {
    MarkedKeepsClaims(lease, o, s, key);
    assert s.claims[key := s.claims[key].(status := Emitted)].Keys == s.claims.Keys;
  }

  /** Marking touches its own row only, and only while that is pending under the holder's token. */
  lemma LegacyMarkIsFenced(env: Env, lease: nat, s: Legacy, step: LegacyStep)
    requires step.MarkStep? && Enabled(s, step)
    ensures var (t, grant) := (Next(env, lease, s, step), s.holding[step.worker].grant);
            && t.log == s.log && t.claims.Keys == s.claims.Keys
            && (forall k :: k in s.claims && k != grant.key ==> t.claims[k] == s.claims[k])
            && (if HeldUnder(s.claims, grant.key, grant.token) then t.claims[grant.key].status.Emitted?
                else t.claims == s.claims)
  {
  }

  lemma MarkStepForm(env: Env, lease: nat, o: Legacy, s: Legacy, step: LegacyStep)
    requires HoldersOk(o, s) && step.MarkStep? && Enabled(s, step)
    ensures var (t, key) := (Next(env, lease, s, step), s.holding[step.worker].grant.key);
            && key in s.claims && Recorded(o, s.log, key) >= 1
            && var released := s.(holding := s.holding - {step.worker});
            t == released || t == released.(claims := s.claims[key := s.claims[key].(status := Emitted)])
  {
  }

  /** The marked row's event is in the log: its holder recorded it. */
  lemma MarkPreserves(env: Env, lease: nat, o: Legacy, s: Legacy, step: LegacyStep)
    requires Inv(lease, o, s) && step.MarkStep? && Enabled(s, step)
    ensures Inv(lease, o, Next(env, lease, s, step))
  {
    ReleasePreserves(lease, o, s, step.worker);
    MarkStepForm(env, lease, o, s, step);
    MarkedClaims(lease, o, s.(holding := s.holding - {step.worker}), s.holding[step.worker].grant.key);
  }

  lemma {:induction false} RunPreserves(env: Env, lease: nat, o: Legacy, s: Legacy, steps: seq<LegacyStep>)
    requires Inv(lease, o, s)
    ensures Inv(lease, o, Exec(env, lease, s, steps))
    decreases |steps|
  {
    if steps != [] {
      if Enabled(s, steps[0]) {
        match steps[0] {
          case ClaimStep(_, _, _, _, _) => ClaimPreserves(env, lease, o, s, steps[0]);
          case RecordStep(_, _) => RecordPreserves(env, lease, o, s, steps[0]);
          case MarkStep(_) => MarkPreserves(env, lease, o, s, steps[0]);
          case Crash(worker) => ReleasePreserves(lease, o, s, worker);
          case Unrelated(_) => UnrelatedPreserves(env, lease, o, s, steps[0]);
        }
        RunPreserves(env, lease, o, Next(env, lease, s, steps[0]), steps[1..]);
      } else {
        RunPreserves(env, lease, o, s, steps[1..]);
      }
    }
  }

  lemma {:induction false} SpacedSpan(times: seq<real>, lease: nat)
    requires Spaced(times, lease) && times != []
    ensures (|times| - 1) as real * lease as real <= times[|times| - 1] - times[0]
  {
    var n := |times| - 1;
    if n > 0 {
      SpacedSpan(times[..n], lease);
      assert times[n] - times[n - 1] >= lease as real;
      assert n as real * lease as real == (n - 1) as real * lease as real + lease as real;
    }
  }

  lemma StartIsGood(lease: nat, s: Legacy)
    requires Start(s)
    ensures Inv(lease, s, s)
  {
    forall k ensures |Open(s.holding, k)| == 0 { assert Open(s.holding, k) == {}; }
  }

  /** A row emitted since `o` has an event recorded since; events never outnumber grants; and the grants,
      with the one found in the table if there was one, span their leases. */
  ghost predicate EmittedWithinLeases(lease: nat, o: Legacy, t: Legacy, key: Key) {
    var times := GrantsOf(t.grants, key);
    && (key in t.claims && EmittedSince(o, t.claims, key) ==> Recorded(o, t.log, key) >= 1)
    && 0 <= Recorded(o, t.log, key) <= |times| - (if key in o.claims then 1 else 0)
    && (times != [] ==>
          && key in t.claims && times[|times| - 1] == t.claims[key].claimedAt
          && (|times| - 1) as real * lease as real <= times[|times| - 1] - times[0])
  }

  lemma InvariantBounds(lease: nat, o: Legacy, t: Legacy, key: Key)
    requires Start(o) && Inv(lease, o, t)
    ensures EmittedWithinLeases(lease, o, t, key)
  {
    var times := GrantsOf(t.grants, key);
    assert PaidFor(o, t.log, t.holding, t.grants, key);
    if times != [] {
      assert key in t.claims;
      SpacedSpan(times, lease);
    }
  }

  /** At least once, and not much more, from whatever the tables hold: a row emitted since has an event
      recorded since; the events recorded for a key never outnumber the grants made for it; and its grants
      spread over at least (grants - 1) leases of recorded claim times, the stored one included, even when
      the workers' clocks do not run forward. */
  lemma AtLeastOnceWithinTheLeases(env: Env, lease: nat, s: Legacy, steps: seq<LegacyStep>)
    requires Start(s)
    ensures forall key :: EmittedWithinLeases(lease, s, Exec(env, lease, s, steps), key)
  {
    StartIsGood(lease, s);
    RunPreserves(env, lease, s, s, steps);
    forall key ensures EmittedWithinLeases(lease, s, Exec(env, lease, s, steps), key) {
      InvariantBounds(lease, s, Exec(env, lease, s, steps), key);
    }
  }
}
