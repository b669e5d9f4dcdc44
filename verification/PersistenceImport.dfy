/** The one-shot import of the four legacy stores, and the independent reconciliation of its result. */
module PersistenceImport {
  import opened Outcomes
  import opened Text
  import opened JsonValues
  import opened AuditChain
  import opened AuditVerifiers
  import Documents
  import GitOps
  import GitOpsShared

  // ---- Rows. SQLite columns are dynamically typed, so unchecked columns hold any JSON scalar. ----

  datatype ClaimSource = ClaimSource(
    run: Json, kind: Json, evidence: JsonText, status: string, token: Json, claimedAt: real)

  datatype PlanSource = PlanSource(id: Json, tenant: Json, payload: JsonText, order: Json)

  datatype ChangeSource = ChangeSource(id: Json, payload: JsonText, order: Json)

  /** A source row: the required columns and whatever other columns its file has. */
  datatype SourceRow<R> = SourceRow(row: R, extra: map<string, Json>)

  datatype Sources = Sources(
    audit: seq<SourceRow<AuditRow>>, claims: seq<SourceRow<ClaimSource>>,
    plans: seq<SourceRow<PlanSource>>, changes: seq<SourceRow<ChangeSource>>)

  function Rows<R>(rows: seq<SourceRow<R>>): (r: seq<R>)
    ensures |r| == |rows|
  {
    seq(|rows|, i requires 0 <= i < |rows| => rows[i].row)
  }

  predicate NoExtraColumns<R>(rows: seq<SourceRow<R>>) {
    forall i :: 0 <= i < |rows| ==> rows[i].extra == map[]
  }

  // ---- Validation ------------------------------------------------------------------------

  predicate ShortText(j: Json, limit: nat) {
    j.Str? && |j.s| <= limit
  }

  predicate ClaimOk(c: ClaimSource) {
    && c.status in {"pending", "emitted"}
    && c.evidence.Decoded? && c.evidence.value.Obj?
    && (c.status == "pending" ==> Truthy(c.token))
    && ShortText(c.run, 255) && ShortText(c.kind, 255) && ShortText(c.token, 64)
  }

  predicate PlanOk(p: PlanSource) {
    && p.payload.Decoded? && p.payload.value.Obj?
    && ShortText(p.id, 255) && (p.tenant.Null? || ShortText(p.tenant, 255))
    && Get(p.payload.value.fields, "action_id") == Some(p.id)
  }

  /** (payload.get("metadata") or {}).get("tenant_id"), None as Null. */
  function OwnerOf(payload: JsonText): Json {
    if payload.Decoded? && payload.value.Obj? then
      var metadata := SubObject(payload.value.fields, "metadata");
      if "tenant_id" in metadata then metadata["tenant_id"] else Null
    else Null
  }

  /** The payload's metadata names this tenant. */
  predicate NamesOwner(payload: JsonText, tenant: string) {
    && payload.Decoded? && payload.value.Obj? && "metadata" in payload.value.fields
    && payload.value.fields["metadata"].Obj?
    && Get(payload.value.fields["metadata"].fields, "tenant_id") == Some(Str(tenant))
  }

  predicate ChangeOk(c: ChangeSource) {
    && c.payload.Decoded? && c.payload.value.Obj?
    && ShortText(c.id, 255)
    && Get(c.payload.value.fields, "change_id") == Some(c.id)
    && ("metadata" in c.payload.value.fields ==>
          c.payload.value.fields["metadata"].Null? || c.payload.value.fields["metadata"].Obj?)
    && (OwnerOf(c.payload).Null? || ShortText(OwnerOf(c.payload), 255))
  }

  /** Stable, unique, positive creation orders. */
  predicate OrdersOk(orders: seq<Json>) {
    && (forall i :: 0 <= i < |orders| ==> orders[i].Int? && orders[i].n > 0)
    && (forall i, j :: 0 <= i < j < |orders| ==> orders[i] != orders[j])
  }

  function FirstValues(orders: seq<Json>, n: nat): set<Json>
    requires n <= |orders|
  {
    set j | 0 <= j < n :: orders[j]
  }

  /** n values are distinct exactly when their set has n members. */
  lemma {:induction false} DistinctBySize(orders: seq<Json>, n: nat)
    requires n <= |orders|
    ensures |FirstValues(orders, n)| <= n
    ensures |FirstValues(orders, n)| == n <==> forall j, k :: 0 <= j < k < n ==> orders[j] != orders[k]
  {
    if n > 0 {
      DistinctBySize(orders, n - 1);
      assert FirstValues(orders, n) == FirstValues(orders, n - 1) + {orders[n - 1]};
      assert orders[n - 1] in FirstValues(orders, n - 1) <==> exists j :: 0 <= j < n - 1 && orders[j] == orders[n - 1];
    }
  }

  method ValidateCreationOrders(orders: seq<Json>) returns (ok: bool)
    ensures ok <==> OrdersOk(orders)
  {
    var seen: set<Json> := {};
    for i := 0 to |orders|
      invariant seen == FirstValues(orders, i)
      invariant forall j :: 0 <= j < i ==> orders[j].Int? && orders[j].n > 0
    {
      if !orders[i].Int? || orders[i].n <= 0 { return false; }
      seen := seen + {orders[i]};
    }
    DistinctBySize(orders, |orders|);
    ok := |seen| == |orders|;
  }

  function PlanOrders(plans: seq<SourceRow<PlanSource>>): (orders: seq<Json>)
    ensures |orders| == |plans|
  {
    seq(|plans|, i requires 0 <= i < |plans| => plans[i].row.order)
  }

  function ChangeOrders(changes: seq<SourceRow<ChangeSource>>): (orders: seq<Json>)
    ensures |orders| == |changes|
  {
    seq(|changes|, i requires 0 <= i < |changes| => changes[i].row.order)
  }

  /** What _validate_sources accepts. */
  predicate SourcesValid(env: Env, clock: nat -> string, s: Sources) {
    && DiagnosticsPass(env, clock, Rows(s.audit)) && Contiguous(Rows(s.audit))
    && (forall i :: 0 <= i < |s.claims| ==> ClaimOk(s.claims[i].row))
    && (forall i :: 0 <= i < |s.plans| ==> PlanOk(s.plans[i].row))
    && OrdersOk(PlanOrders(s.plans)) && OrdersOk(ChangeOrders(s.changes))
    && (forall i :: 0 <= i < |s.changes| ==> ChangeOk(s.changes[i].row))
  }

  /** The checks of one claim, in the order of the importer. */
  method CheckClaim(c: ClaimSource) returns (ok: bool)
    ensures ok <==> ClaimOk(c)
  {
    if c.status != "pending" && c.status != "emitted" { return false; }
    if !c.evidence.Decoded? || !c.evidence.value.Obj? { return false; }
    if c.status == "pending" && !Truthy(c.token) { return false; }
    if !c.run.Str? || !c.kind.Str? { return false; }
    if |c.run.s| > 255 || |c.kind.s| > 255 { return false; }
    if !c.token.Str? || |c.token.s| > 64 { return false; }
    ok := true;
  }

  method CheckPlan(p: PlanSource) returns (ok: bool)
    ensures ok <==> PlanOk(p)
  {
    if !p.payload.Decoded? || !p.payload.value.Obj? { return false; }
    if !p.id.Str? || (!p.tenant.Null? && !p.tenant.Str?) { return false; }
    var fields := p.payload.value.fields;
    if "action_id" !in fields || fields["action_id"] != p.id { return false; }
    if |p.id.s| > 255 || (p.tenant.Str? && |p.tenant.s| > 255) { return false; }
    ok := true;
  }

  method CheckChange(c: ChangeSource) returns (ok: bool)
    ensures ok <==> ChangeOk(c)
  {
    if !c.payload.Decoded? || !c.id.Str? || !c.payload.value.Obj? { return false; }
    var fields := c.payload.value.fields;
    if "change_id" !in fields || fields["change_id"] != c.id { return false; }
    var metadata := if "metadata" in fields then fields["metadata"] else Obj(map[]);
    if metadata.Null? { metadata := Obj(map[]); }
    if !metadata.Obj? { return false; }
    var tenant := if "tenant_id" in metadata.fields then metadata.fields["tenant_id"] else Null;
    if !tenant.Null? && !tenant.Str? { return false; }
    if |c.id.s| > 255 || (tenant.Str? && |tenant.s| > 255) { return false; }
    ok := true;
  }

  method ValidateSources(env: Env, clock: nat -> string, s: Sources) returns (ok: bool)
    ensures ok <==> SourcesValid(env, clock, s)
  {
    var rows := Rows(s.audit);
    var integrity := Diagnose(env, clock, rows);
    if !integrity.valid || integrity.count != |s.audit| { return false; }
    for i := 0 to |s.claims|
      invariant forall j :: 0 <= j < i ==> ClaimOk(s.claims[j].row)
    {
      var claimOk := CheckClaim(s.claims[i].row);
      if !claimOk { return false; }
    }
    for i := 0 to |rows|
      invariant forall j :: 0 <= j < i ==> rows[j].sequence == j + 1
    {
      if rows[i].sequence != i + 1 { return false; }
    }
    for i := 0 to |s.plans|
      invariant forall j :: 0 <= j < i ==> PlanOk(s.plans[j].row)
    {
      var planOk := CheckPlan(s.plans[i].row);
      if !planOk { return false; }
    }
    var plansOrdered := ValidateCreationOrders(PlanOrders(s.plans));
    if !plansOrdered { return false; }
    var changesOrdered := ValidateCreationOrders(ChangeOrders(s.changes));
    if !changesOrdered { return false; }
    for i := 0 to |s.changes|
      invariant forall j :: 0 <= j < i ==> ChangeOk(s.changes[j].row)
    {
      var changeOk := CheckChange(s.changes[i].row);
      if !changeOk { return false; }
    }
    ok := true;
  }

  /** A text column of the shared schema takes the value. */
  predicate FitsText(j: Json, limit: nat, nullable: bool) {
    match j
    case Null => nullable
    case Str(text) => |text| <= limit
    case _ => false
  }

  predicate Names(payload: JsonText, field: string, id: Json) {
    payload.Decoded? && payload.value.Obj? && Get(payload.value.fields, field) == Some(id)
  }

  datatype ChangeTarget = ChangeTarget(id: Json, tenant: Json, payload: JsonText, order: Json)

  function Targeted(c: ChangeSource): ChangeTarget {
    ChangeTarget(c.id, OwnerOf(c.payload), c.payload, c.order)
  }

  /** What the importer accepts fits the columns of the shared tables, every payload is an object that names its
      row, and a pending claim has a token, without which nobody could ever finalise it. */
  lemma ValidRowsFitTheSchema(env: Env, clock: nat -> string, s: Sources)
    requires SourcesValid(env, clock, s)
    ensures forall i :: 0 <= i < |s.claims| ==>
              var c := s.claims[i].row;
              && FitsText(c.run, 255, false) && FitsText(c.kind, 255, false) && FitsText(c.token, 64, false)
              && c.evidence.Decoded? && c.evidence.value.Obj?
              && (c.status == "emitted" || (c.status == "pending" && c.token != Str("")))
    ensures forall i :: 0 <= i < |s.plans| ==>
              var p := s.plans[i].row;
              && FitsText(p.id, 255, false) && FitsText(p.tenant, 255, true) && Names(p.payload, "action_id", p.id)
              && p.order.Int? && p.order.n >= 1
    ensures forall i :: 0 <= i < |s.changes| ==>
              var c := s.changes[i].row;
              && FitsText(c.id, 255, false) && FitsText(Targeted(c).tenant, 255, true)
              && Names(c.payload, "change_id", c.id)
              && c.order.Int? && c.order.n >= 1
  {
    forall i | 0 <= i < |s.plans| ensures s.plans[i].row.order.Int? && s.plans[i].row.order.n >= 1 {
      assert PlanOrders(s.plans)[i] == s.plans[i].row.order;
    }
    forall i | 0 <= i < |s.changes| ensures s.changes[i].row.order.Int? && s.changes[i].row.order.n >= 1 {
      assert ChangeOrders(s.changes)[i] == s.changes[i].row.order;
    }
  }

  // ---- The manifest ------------------------------------------------------------------------

  /** max(int(order) for ..., default=0) over validated orders. */
  function MaxOrder(orders: seq<Json>): int {
    if orders == [] then 0
    else
      var (last, rest) := (orders[|orders| - 1], MaxOrder(orders[..|orders| - 1]));
      if last.Int? && last.n > rest then last.n else rest
  }

  datatype Summary = Summary(
    manifest: string, auditCount: nat, claimCount: nat, planCount: nat, changeCount: nat,
    finalHash: string, planMax: int, changeMax: int)

  /** `digest` is SHA-256 of the canonical JSON of all four tables, extra columns included. */
  function Summarise(digest: Sources -> string, s: Sources): Summary {
    Summary(digest(s), |s.audit|, |s.claims|, |s.plans|, |s.changes|,
            TailHash(Rows(s.audit)), MaxOrder(PlanOrders(s.plans)), MaxOrder(ChangeOrders(s.changes)))
  }

  lemma {:induction false} MaxOrderBounds(orders: seq<Json>)
    requires OrdersOk(orders)
    ensures forall i :: 0 <= i < |orders| ==> 1 <= orders[i].n <= MaxOrder(orders)
    ensures MaxOrder(orders) >= 0
    ensures orders != [] ==> Int(MaxOrder(orders)) in orders
  {
    if orders != [] {
      var front := orders[..|orders| - 1];
      MaxOrderBounds(front);
      forall i | 0 <= i < |orders| ensures 1 <= orders[i].n <= MaxOrder(orders) {
        if i < |front| { assert orders[i] == front[i]; }
      }
    }
  }

  // ---- The target --------------------------------------------------------------------------

  datatype LedgerRow = LedgerRow(manifest: string, report: Summary)

  /** The migrated shared schema: four stores, three singleton head rows, the import ledger. */
  datatype Target = Target(
    chain: Chain, claims: multiset<ClaimSource>, plans: multiset<PlanSource>, planLast: int,
    changes: multiset<ChangeTarget>, changeLast: int, ledger: seq<LedgerRow>)

  function TargetedAll(changes: seq<SourceRow<ChangeSource>>): (r: seq<ChangeTarget>)
    ensures |r| == |changes|
  {
    seq(|changes|, i requires 0 <= i < |changes| => Targeted(changes[i].row))
  }

  predicate TablesEmpty(t: Target) {
    t.chain.rows == [] && t.claims == multiset{} && t.plans == multiset{} && t.changes == multiset{} && t.ledger == []
  }

  /** The target after a committed import. */
  function Imported(s: Sources, summary: Summary): Target {
    Target(Chain(Rows(s.audit), summary.auditCount, summary.finalHash),
           multiset(Rows(s.claims)), multiset(Rows(s.plans)), summary.planMax,
           multiset(TargetedAll(s.changes)), summary.changeMax, [LedgerRow(summary.manifest, summary)])
  }

  /** An earlier import with this manifest committed. */
  predicate InLedger(t: Target, manifest: string) {
    exists i :: 0 <= i < |t.ledger| && t.ledger[i].manifest == manifest
  }

  datatype ImportStatus = AlreadyImported | DryRun | Imports | TargetNotEmpty | DatabaseFailed

  /** The payload's owner can be read: anything else makes the reconciler raise. */
  predicate OwnerReadable(payload: JsonText) {
    && payload.Decoded? && payload.value.Obj?
    && ("metadata" in payload.value.fields ==>
          !Truthy(payload.value.fields["metadata"]) || payload.value.fields["metadata"].Obj?)
  }

  /** (payload.get("metadata") or {}).get("tenant_id"), None where it raises. */
  method ReadOwner(payload: JsonText) returns (owner: Option<Json>)
    ensures owner.Some? <==> OwnerReadable(payload)
    ensures owner.Some? ==> owner.value == OwnerOf(payload)
    ensures forall tenant :: owner == Some(Str(tenant)) <==> NamesOwner(payload, tenant)
  {
    if !payload.Decoded? || !payload.value.Obj? { return None; }
    var fields := payload.value.fields;
    if "metadata" !in fields || !Truthy(fields["metadata"]) { return Some(Null); }
    if !fields["metadata"].Obj? { return None; }
    var metadata := fields["metadata"].fields;
    owner := Some(if "tenant_id" in metadata then metadata["tenant_id"] else Null);
  }

  method TargetRows(changes: seq<SourceRow<ChangeSource>>) returns (targeted: seq<ChangeTarget>)
    ensures targeted == TargetedAll(changes)
  {
    targeted := [];
    for i := 0 to |changes|
      invariant |targeted| == i && targeted == TargetedAll(changes)[..i]
    {
      targeted := targeted + [Targeted(changes[i].row)];
    }
  }

  function WithRows(t: Target, s: Sources): Target {
    t.(chain := t.chain.(rows := t.chain.rows + Rows(s.audit)), claims := t.claims + multiset(Rows(s.claims)),
       plans := t.plans + multiset(Rows(s.plans)), changes := t.changes + multiset(TargetedAll(s.changes)))
  }

  lemma FilledFromEmpty(t: Target, s: Sources)
    requires TablesEmpty(t)
    ensures WithRows(t, s) == Target(Chain(Rows(s.audit), t.chain.lastSequence, t.chain.lastHash),
                                     multiset(Rows(s.claims)), multiset(Rows(s.plans)), t.planLast,
                                     multiset(TargetedAll(s.changes)), t.changeLast, [])
    ensures forall r: LedgerRow :: WithRows(t, s).ledger + [r] == [r]
  {
  }

  class ImportTarget {
    var state: Target

    constructor (t: Target)
      ensures state == t
    {
      state := t;
    }

    /** _dry_run_or_import. `failsAt` is the statement of the one transaction the database refuses, if
        any; a failure rolls everything back. */
    method DryRunOrImport(s: Sources, summary: Summary, apply: bool,
                          failsAt: Option<nat>) returns (status: ImportStatus)
      modifies this
      ensures status.AlreadyImported? <==> InLedger(old(state), summary.manifest)
      ensures status.Imports? ==> InLedger(state, summary.manifest)
      ensures !status.AlreadyImported? ==> (status.TargetNotEmpty? <==> !TablesEmpty(old(state)))
      ensures !status.AlreadyImported? && !status.TargetNotEmpty? ==> (status.DryRun? <==> !apply)
      ensures status.DatabaseFailed? ==> failsAt.Some?
      ensures state == if status.Imports? then Imported(s, summary) else old(state)
    {
      for i := 0 to |state.ledger|
        invariant state == old(state)
        invariant forall j :: 0 <= j < i ==> state.ledger[j].manifest != summary.manifest
      {
        if state.ledger[i].manifest == summary.manifest { return AlreadyImported; }
      }
      if !TablesEmpty(state) { return TargetNotEmpty; }
      if !apply { return DryRun; }

      var saved := state;
      var ok := InsertRows(s, failsAt);
      if ok { ok := WriteHeads(summary, failsAt); }
      if !ok {
        state := saved;
        return DatabaseFailed;
      }
      FilledFromEmpty(saved, s);
      assert state.ledger[0].manifest == summary.manifest;
      status := Imports;
    }

    /** The first half of the transaction: the four tables. */
    method InsertRows(s: Sources, failsAt: Option<nat>) returns (ok: bool)
      modifies this
      ensures !ok ==> failsAt.Some?
      ensures ok ==> state == WithRows(old(state), s)
    {
      if failsAt == Some(0) { return false; }
      state := state.(chain := state.chain.(rows := state.chain.rows + Rows(s.audit)));
      if failsAt == Some(1) { return false; }
      state := state.(claims := state.claims + multiset(Rows(s.claims)));
      if failsAt == Some(2) { return false; }
      state := state.(plans := state.plans + multiset(Rows(s.plans)));
      if failsAt == Some(3) { return false; }
      var targeted := TargetRows(s.changes);
      state := state.(changes := state.changes + multiset(targeted));
      ok := true;
    }

    /** The second half: the three head rows and the ledger. */
    method WriteHeads(summary: Summary, failsAt: Option<nat>) returns (ok: bool)
      modifies this
      ensures !ok ==> failsAt.Some?
      ensures ok ==>
                state == old(state).(chain :=
                  old(state).chain.(lastSequence := summary.auditCount, lastHash := summary.finalHash),
                                     planLast := summary.planMax, changeLast := summary.changeMax,
                                     ledger := old(state).ledger + [LedgerRow(summary.manifest, summary)])
    {
      if failsAt == Some(4) { return false; }
      state := state.(chain := state.chain.(lastSequence := summary.auditCount, lastHash := summary.finalHash));
      if failsAt == Some(5) { return false; }
      state := state.(planLast := summary.planMax);
      if failsAt == Some(6) { return false; }
      state := state.(changeLast := summary.changeMax);
      if failsAt == Some(7) { return false; }
      state := state.(ledger := state.ledger + [LedgerRow(summary.manifest, summary)]);
      ok := true;
    }
  }

  /** The importer writes each change set under the owner its payload names, and under none otherwise. */
  lemma TargetsAreOwned(changes: seq<SourceRow<ChangeSource>>, i: nat)
    requires i < |changes| && ChangeOk(changes[i].row)
    ensures var (source, target) := (changes[i].row, TargetedAll(changes)[i]);
            && target.id == source.id && target.payload == source.payload && target.order == source.order
            && (forall tenant :: target.tenant == Str(tenant) <==> NamesOwner(source.payload, tenant))
            && (target.tenant.Str? || target.tenant.Null?)
  {
  }

  lemma OwnerIsPlain(d: Documents.Doc, metadata: Documents.Dict)
    requires d.DObj? && GitOps.FindOr(d.fields, "metadata", Documents.DObj([])) == Documents.DObj(metadata)
    ensures var found := Documents.Find(metadata, "tenant_id");
            OwnerOf(Decoded(Documents.Plain(d))) == if found.Some? then Documents.Plain(found.value) else Null
  {
    Documents.PlainLooksUp(d.fields, "metadata");
    Documents.PlainLooksUp(metadata, "tenant_id");
  }

  lemma MetadataIsDecoded(d: Documents.Doc)
    requires GitOps.Decode(d, None).Some?
    ensures d.DObj?
    ensures GitOps.FindOr(d.fields, "metadata", Documents.DObj([]))
            == Documents.DObj(GitOps.Decode(d, None).value.metadata)
  {
  }

  /** That is the owner the shared registry reads from the same payload: for a payload that decodes, the
      imported tenant column is the one the registry's own compare-and-swap expects. */
  lemma ImportedOwnerIsTheRegistrys(d: Documents.Doc, c: ChangeSource)
    requires c.payload == Decoded(Documents.Plain(d)) && ChangeOk(c) && GitOps.Decode(d, None).Some?
    ensures var (owner, cs) := (Targeted(c).tenant, GitOps.Decode(d, None).value);
            GitOpsShared.OwnedBy(if owner.Str? then Some(owner.s) else None, cs)
  {
    var (cs, owner) := (GitOps.Decode(d, None).value, Targeted(c).tenant);
    MetadataIsDecoded(d);
    OwnerIsPlain(d, cs.metadata);
    GitOpsShared.TenantIsOwner(if owner.Str? then Some(owner.s) else None, cs);
  }

  // ---- Reading back in order ---------------------------------------------------------------

  /** `rows` is a result of SELECT ... ORDER BY on a table, for the order `before`. */
  ghost predicate IsRead<R(!new)>(table: multiset<R>, before: (R, R) -> bool, rows: seq<R>) {
    multiset(rows) == table && forall i, j :: 0 <= i < j < |rows| ==> !before(rows[j], rows[i])
  }

  /** The rows are strictly ascending, as an ordered read by a unique key is. */
  ghost predicate Strict<R(!new)>(before: (R, R) -> bool, rows: seq<R>) {
    forall i, j :: 0 <= i < j < |rows| ==> before(rows[i], rows[j])
  }

  lemma FirstRead<R(!new)>(before: (R, R) -> bool, expected: seq<R>, actual: seq<R>)
    requires expected != [] && Strict(before, expected) && IsRead(multiset(expected), before, actual)
    ensures |actual| == |expected| && actual[0] == expected[0]
  {
    assert |multiset(actual)| == |actual| && |multiset(expected)| == |expected|;
    assert expected[0] in multiset(actual) && actual[0] in multiset(expected);
    var i :| 0 <= i < |expected| && expected[i] == actual[0];
    var j :| 0 <= j < |actual| && actual[j] == expected[0];
    assert i > 0 ==> before(expected[0], expected[i]);
    assert j > 0 ==> !before(actual[j], actual[0]);
  }

  lemma RestRead<R(!new)>(before: (R, R) -> bool, expected: seq<R>, actual: seq<R>)
    requires expected != [] && |actual| == |expected| && actual[0] == expected[0]
    requires Strict(before, expected) && IsRead(multiset(expected), before, actual)
    ensures Strict(before, expected[1..]) && IsRead(multiset(expected[1..]), before, actual[1..])
  {
    assert expected == [expected[0]] + expected[1..] && actual == [actual[0]] + actual[1..];
    assert multiset(expected[1..]) == multiset(expected) - multiset{expected[0]};
    assert multiset(actual[1..]) == multiset(actual) - multiset{actual[0]};
  }

  /** Reading a table back gives the strictly ascending list of its rows, and nothing else. */
  lemma {:induction false} ReadIsUnique<R(!new)>(before: (R, R) -> bool, expected: seq<R>, actual: seq<R>)
    requires Strict(before, expected) && IsRead(multiset(expected), before, actual)
    ensures actual == expected
    decreases |expected|
  {
    if expected == [] {
      assert |multiset(actual)| == |actual|;
    } else {
      FirstRead(before, expected, actual);
      RestRead(before, expected, actual);
      ReadIsUnique(before, expected[1..], actual[1..]);
      assert expected == [expected[0]] + expected[1..] && actual == [actual[0]] + actual[1..];
    }
  }

  // ---- Reconciliation ----------------------------------------------------------------------

  datatype Mismatch =
    | AuditHashChain | AuditRecords | ClaimRecords | PlanRecords | ChangeRecords | TenantAttribution
    | ChainHead | PlanOrderHead | ChangeOrderHead | LedgerCardinality | LedgerManifest | LedgerReport

  /** The target as the reconciler reads it. */
  datatype Readback = Readback(
    chain: Chain, claims: seq<ClaimSource>, plans: seq<PlanSource>, planLast: int,
    changes: seq<ChangeTarget>, changeLast: int, ledger: seq<LedgerRow>)

  function Normalised(changes: seq<ChangeTarget>): (r: seq<ChangeSource>)
    ensures |r| == |changes|
  {
    seq(|changes|, i requires 0 <= i < |changes| => ChangeSource(changes[i].id, changes[i].payload, changes[i].order))
  }

  /** A target row equals a source row only if the source has no further columns. */
  predicate SameRecords<R(==)>(actual: seq<R>, expected: seq<SourceRow<R>>) {
    actual == Rows(expected) && NoExtraColumns(expected)
  }

  predicate TenantsAttributed(changes: seq<ChangeTarget>) {
    forall i :: 0 <= i < |changes| ==> changes[i].tenant == OwnerOf(changes[i].payload)
  }

  predicate HeadsMatch(summary: Summary, t: Readback) {
    && t.chain.lastSequence == summary.auditCount && t.chain.lastHash == summary.finalHash
    && t.planLast == summary.planMax && t.changeLast == summary.changeMax
  }

  predicate LedgerMatches(summary: Summary, t: Readback) {
    |t.ledger| == 1 && t.ledger[0].manifest == summary.manifest && t.ledger[0].report == summary
  }

  /** Target and sources say the same thing in every respect the reconciler looks at. */
  predicate Reconciled(env: Env, s: Sources, summary: Summary, t: Readback) {
    && Contiguous(t.chain.rows) && Linked(env, t.chain.rows)
    && SameRecords(t.chain.rows, s.audit) && SameRecords(t.claims, s.claims) && SameRecords(t.plans, s.plans)
    && SameRecords(Normalised(t.changes), s.changes) && TenantsAttributed(t.changes)
    && HeadsMatch(summary, t) && LedgerMatches(summary, t)
  }

  /** Each mismatch, and what it reports. */
  predicate Differs(env: Env, s: Sources, summary: Summary, t: Readback, m: Mismatch) {
    match m
    case AuditHashChain => !(Contiguous(t.chain.rows) && Linked(env, t.chain.rows))
    case AuditRecords => !SameRecords(t.chain.rows, s.audit)
    case ClaimRecords => !SameRecords(t.claims, s.claims)
    case PlanRecords => !SameRecords(t.plans, s.plans)
    case ChangeRecords => !SameRecords(Normalised(t.changes), s.changes)
    case TenantAttribution => !TenantsAttributed(t.changes)
    case ChainHead => t.chain.lastSequence != summary.auditCount || t.chain.lastHash != summary.finalHash
    case PlanOrderHead => t.planLast != summary.planMax
    case ChangeOrderHead => t.changeLast != summary.changeMax
    case LedgerCardinality => |t.ledger| != 1
    case LedgerManifest => |t.ledger| == 1 && t.ledger[0].manifest != summary.manifest
    case LedgerReport =>
      |t.ledger| == 1 && t.ledger[0].manifest == summary.manifest && t.ledger[0].report != summary
  }

  predicate OwnersReadable(changes: seq<ChangeTarget>) {
    forall i :: 0 <= i < |changes| ==> OwnerReadable(changes[i].payload)
  }

  /** The loop over the target's change sets: None when it raises, else whether all tenants agree. */
  method CompareTenants(changes: seq<ChangeTarget>) returns (r: Option<bool>)
    ensures r.Some? <==> OwnersReadable(changes)
    ensures r.Some? ==> (r.value <==> TenantsAttributed(changes))
  {
    var same := true;
    for i := 0 to |changes|
      invariant forall j :: 0 <= j < i ==> OwnerReadable(changes[j].payload)
      invariant same <==> forall j :: 0 <= j < i ==> changes[j].tenant == OwnerOf(changes[j].payload)
    {
      var owner := ReadOwner(changes[i].payload);
      if owner.None? { return None; }
      if changes[i].tenant != owner.value { same := false; }
    }
    r := Some(same);
  }

  /** Heads and ledger are compared after the tables. */
  predicate ConcernsTables(m: Mismatch) {
    m.AuditHashChain? || m.AuditRecords? || m.ClaimRecords? || m.PlanRecords? || m.TenantAttribution?
    || m.ChangeRecords?
  }

  method CompareHeads(env: Env, s: Sources, summary: Summary, t: Readback) returns (found: set<Mismatch>)
    ensures forall m :: m in found <==> !ConcernsTables(m) && Differs(env, s, summary, t, m)
  {
    found := {};
    if t.chain.lastSequence != summary.auditCount || t.chain.lastHash != summary.finalHash {
      found := found + {ChainHead};
    }
    if t.planLast != summary.planMax { found := found + {PlanOrderHead}; }
    if t.changeLast != summary.changeMax { found := found + {ChangeOrderHead}; }
    if |t.ledger| != 1 {
      found := found + {LedgerCardinality};
    } else if t.ledger[0].manifest != summary.manifest {
      found := found + {LedgerManifest};
    } else if t.ledger[0].report != summary {
      found := found + {LedgerReport};
    }
  }

  /** The table mismatches whose comparison failed. */
  function TableMismatches(chain: bool, audit: bool, claims: bool, plans: bool, tenants: bool, changes: bool)
    : (found: set<Mismatch>)
    ensures forall m :: m in found <==>
              || (m.AuditHashChain? && !chain) || (m.AuditRecords? && !audit) || (m.ClaimRecords? && !claims)
              || (m.PlanRecords? && !plans) || (m.TenantAttribution? && !tenants) || (m.ChangeRecords? && !changes)
  {
    (if chain then {} else {AuditHashChain}) + (if audit then {} else {AuditRecords})
    + (if claims then {} else {ClaimRecords}) + (if plans then {} else {PlanRecords})
    + (if tenants then {} else {TenantAttribution}) + (if changes then {} else {ChangeRecords})
  }

  method CompareTables(env: Env, s: Sources, summary: Summary, t: Readback) returns (r: Option<set<Mismatch>>)
    ensures r.Some? <==> OwnersReadable(t.changes)
    ensures r.Some? ==> forall m :: m in r.value <==> ConcernsTables(m) && Differs(env, s, summary, t, m)
  {
    var chain := AuditChainValid(env, t.chain.rows);
    var audit, claims := SameRecords(t.chain.rows, s.audit), SameRecords(t.claims, s.claims);
    var plans := SameRecords(t.plans, s.plans);
    var tenants := CompareTenants(t.changes);
    if tenants.None? { return None; }
    var changes := SameRecords(Normalised(t.changes), s.changes);
    r := Some(TableMismatches(chain, audit, claims, plans, tenants.value, changes));
  }

  /** reconcile: None when the source chain is invalid or a target payload cannot be read, else the set
      of mismatches, each present exactly when target and sources differ in that respect. */
  method Reconcile(env: Env, digest: Sources -> string, s: Sources, t: Readback) returns (r: Option<set<Mismatch>>)
    ensures r.Some? <==> Contiguous(Rows(s.audit)) && Linked(env, Rows(s.audit)) && OwnersReadable(t.changes)
    ensures r.Some? ==> forall m :: m in r.value <==> Differs(env, s, Summarise(digest, s), t, m)
  {
    var sourceValid := AuditChainValid(env, Rows(s.audit));
    if !sourceValid { return None; }
    var summary := Summarise(digest, s);
    var tables := CompareTables(env, s, summary, t);
    if tables.None? { return None; }
    var heads := CompareHeads(env, s, summary, t);
    r := Some(tables.value + heads);
  }

  /** No mismatch at all is the same as agreement in every respect. */
  lemma NoMismatchIsAgreement(env: Env, s: Sources, summary: Summary, t: Readback)
    ensures Reconciled(env, s, summary, t) <==> forall m :: !Differs(env, s, summary, t, m)
  {
    if forall m :: !Differs(env, s, summary, t, m) {
      assert !Differs(env, s, summary, t, AuditHashChain) && !Differs(env, s, summary, t, AuditRecords);
      assert !Differs(env, s, summary, t, ClaimRecords) && !Differs(env, s, summary, t, PlanRecords);
      assert !Differs(env, s, summary, t, ChangeRecords) && !Differs(env, s, summary, t, TenantAttribution);
      assert !Differs(env, s, summary, t, ChainHead) && !Differs(env, s, summary, t, PlanOrderHead);
      assert !Differs(env, s, summary, t, ChangeOrderHead) && !Differs(env, s, summary, t, LedgerCardinality);
      assert !Differs(env, s, summary, t, LedgerManifest) && !Differs(env, s, summary, t, LedgerReport);
    }
  }

  // ---- Import, then reconcile ----------------------------------------------------------------

  function PlanBefore(): (PlanSource, PlanSource) -> bool {
    (a: PlanSource, b: PlanSource) => a.order.Int? && b.order.Int? && a.order.n < b.order.n
  }

  function ChangeBefore(): (ChangeTarget, ChangeTarget) -> bool {
    (a: ChangeTarget, b: ChangeTarget) => a.order.Int? && b.order.Int? && a.order.n < b.order.n
  }

  /** The source files were read ORDER BY created_order, and by the claims' unique primary key. */
  ghost predicate SourcesInOrder(s: Sources, claimBefore: (ClaimSource, ClaimSource) -> bool) {
    && Strict(claimBefore, Rows(s.claims))
    && (forall i, j :: 0 <= i < j < |s.plans| && s.plans[i].row.order.Int? && s.plans[j].row.order.Int? ==>
          s.plans[i].row.order.n <= s.plans[j].row.order.n)
    && (forall i, j :: 0 <= i < j < |s.changes| && s.changes[i].row.order.Int? && s.changes[j].row.order.Int? ==>
          s.changes[i].row.order.n <= s.changes[j].row.order.n)
  }

  /** A readback of the target: heads and ledger as stored, each table in its ORDER BY order. */
  ghost predicate ReadsTarget(t: Target, claimBefore: (ClaimSource, ClaimSource) -> bool, r: Readback) {
    && r.chain == t.chain && r.planLast == t.planLast && r.changeLast == t.changeLast && r.ledger == t.ledger
    && IsRead(t.claims, claimBefore, r.claims)
    && IsRead(t.plans, PlanBefore(), r.plans)
    && IsRead(t.changes, ChangeBefore(), r.changes)
  }

  predicate AllColumnsRequired(s: Sources) {
    NoExtraColumns(s.audit) && NoExtraColumns(s.claims) && NoExtraColumns(s.plans) && NoExtraColumns(s.changes)
  }

  lemma PlansReadBack(s: Sources, actual: seq<PlanSource>)
    requires OrdersOk(PlanOrders(s.plans)) && IsRead(multiset(Rows(s.plans)), PlanBefore(), actual)
    requires forall i, j :: 0 <= i < j < |s.plans| && s.plans[i].row.order.Int? && s.plans[j].row.order.Int? ==>
               s.plans[i].row.order.n <= s.plans[j].row.order.n
    ensures actual == Rows(s.plans)
  {
    var (rows, orders) := (Rows(s.plans), PlanOrders(s.plans));
    forall i, j | 0 <= i < j < |rows| ensures PlanBefore()(rows[i], rows[j]) {
      assert orders[i] != orders[j];
    }
    ReadIsUnique(PlanBefore(), rows, actual);
  }

  lemma ChangesReadBack(s: Sources, actual: seq<ChangeTarget>)
    requires OrdersOk(ChangeOrders(s.changes)) && IsRead(multiset(TargetedAll(s.changes)), ChangeBefore(), actual)
    requires forall i, j :: 0 <= i < j < |s.changes| && s.changes[i].row.order.Int? && s.changes[j].row.order.Int? ==>
               s.changes[i].row.order.n <= s.changes[j].row.order.n
    ensures Normalised(actual) == Rows(s.changes) && TenantsAttributed(actual)
  {
    var (rows, orders) := (TargetedAll(s.changes), ChangeOrders(s.changes));
    forall i, j | 0 <= i < j < |rows| ensures ChangeBefore()(rows[i], rows[j]) {
      assert orders[i] != orders[j];
    }
    ReadIsUnique(ChangeBefore(), rows, actual);
  }

  /** The allocator's invariant: distinct orders in 1..last, and last is in use unless the table is empty. */
  ghost predicate AllocatorOk(orders: seq<Json>, last: int) {
    && (forall i :: 0 <= i < |orders| ==> orders[i].Int? && 1 <= orders[i].n <= last)
    && (forall i, j :: 0 <= i < j < |orders| ==> orders[i] != orders[j])
    && if orders == [] then last == 0 else Int(last) in orders
  }

  /** Once every table reads back as its source, heads and ledger agree too; what is left to compare is
      the links of the stored events and the columns. */
  lemma ReadBackReconciles(env: Env, s: Sources, summary: Summary, r: Readback)
    requires Contiguous(Rows(s.audit)) && r.chain == Chain(Rows(s.audit), summary.auditCount, summary.finalHash)
    requires r.claims == Rows(s.claims) && r.plans == Rows(s.plans) && Normalised(r.changes) == Rows(s.changes)
    requires TenantsAttributed(r.changes)
    requires r.planLast == summary.planMax && r.changeLast == summary.changeMax
    requires r.ledger == [LedgerRow(summary.manifest, summary)]
    ensures Reconciled(env, s, summary, r) <==> Linked(env, Rows(s.audit)) && AllColumnsRequired(s)
  {
  }

  /** A valid source whose stored events do link is complete, or one of its rows cannot be told apart
      from the event that reading it rebuilds. */
  lemma LinkedSourcesAreComplete(env: Env, clock: nat -> string, rows: seq<AuditRow>)
    requires DiagnosticsPass(env, clock, rows)
    ensures forall i :: 0 <= i < |rows| ==> IsAscii(PreviousHash(rows, i))
    ensures Complete(rows) ==> Linked(env, rows)
    ensures Linked(env, rows) ==> Complete(rows) || exists i :: 0 <= i < |rows| && Indistinct(env, clock, rows, i)
  {
    forall i | 0 <= i < |rows| ensures IsAscii(PreviousHash(rows, i)) {
      assert DiagnosticOk(env, clock, rows, i);
    }
    if Complete(rows) { VerifiersAgree(env, clock, rows); }
    if Linked(env, rows) && !Complete(rows) {
      var i :| 0 <= i < |rows| && !CarriesEveryField(rows[i].json);
      assert DiagnosticOk(env, clock, rows, i) && LinkOk(env, rows, i);
      MissingOptionalKeysDivide(env, clock, rows, i);
    }
  }

  lemma ImportedOwnersReadable(s: Sources, changes: seq<ChangeTarget>)
    requires forall i :: 0 <= i < |s.changes| ==> ChangeOk(s.changes[i].row)
    requires Normalised(changes) == Rows(s.changes)
    ensures OwnersReadable(changes)
  {
    forall i | 0 <= i < |changes| ensures OwnerReadable(changes[i].payload) {
      assert Normalised(changes)[i] == s.changes[i].row && ChangeOk(s.changes[i].row);
    }
  }

  lemma ImportedChain(env: Env, clock: nat -> string, s: Sources, summary: Summary)
    requires Importable(env, clock, Rows(s.audit))
    requires summary.auditCount == |s.audit| && summary.finalHash == TailHash(Rows(s.audit))
    ensures Imported(s, summary).chain == Apply(env, EMPTY_CHAIN, Import(Rows(s.audit), clock))
    ensures HeadOk(Imported(s, summary).chain)
  {
    ImportableHashesAreDigests(env, clock, Rows(s.audit));
  }

  /** Importing valid sources is an import step of the log and establishes its head invariant and the
      allocator invariants. However the target is then read back, every owner is readable and
      reconciliation finds nothing if and only if the stored source events themselves link and no
      source table has a column beyond the required ones. */
  lemma ImportReconciles(env: Env, clock: nat -> string, digest: Sources -> string, s: Sources,
                         claimBefore: (ClaimSource, ClaimSource) -> bool, r: Readback)
    requires SourcesValid(env, clock, s) && SourcesInOrder(s, claimBefore)
    requires ReadsTarget(Imported(s, Summarise(digest, s)), claimBefore, r)
    ensures r.chain == Apply(env, EMPTY_CHAIN, Import(Rows(s.audit), clock)) && HeadOk(r.chain)
    ensures AllocatorOk(PlanOrders(s.plans), r.planLast) && AllocatorOk(ChangeOrders(s.changes), r.changeLast)
    ensures OwnersReadable(r.changes)
    ensures Reconciled(env, s, Summarise(digest, s), r) <==> Linked(env, Rows(s.audit)) && AllColumnsRequired(s)
  {
    var summary := Summarise(digest, s);
    ImportedChain(env, clock, s, summary);
    MaxOrderBounds(PlanOrders(s.plans));
    MaxOrderBounds(ChangeOrders(s.changes));
    ReadIsUnique(claimBefore, Rows(s.claims), r.claims);
    PlansReadBack(s, r.plans);
    ChangesReadBack(s, r.changes);
    ImportedOwnersReadable(s, r.changes);
    ReadBackReconciles(env, s, summary, r);
  }

  /** In terms of the sources alone: unless a row cannot be told apart from the event rebuilt from it,
      exactly the complete sources without further columns reconcile. */
  lemma CompleteSourcesReconcile(env: Env, clock: nat -> string, digest: Sources -> string, s: Sources,
                                 claimBefore: (ClaimSource, ClaimSource) -> bool, r: Readback)
    requires SourcesValid(env, clock, s) && SourcesInOrder(s, claimBefore)
    requires ReadsTarget(Imported(s, Summarise(digest, s)), claimBefore, r)
    ensures forall i :: 0 <= i < |s.audit| ==> IsAscii(PreviousHash(Rows(s.audit), i))
    ensures (forall i :: 0 <= i < |s.audit| ==> !Indistinct(env, clock, Rows(s.audit), i)) ==>
              (Reconciled(env, s, Summarise(digest, s), r) <==> Complete(Rows(s.audit)) && AllColumnsRequired(s))
  {
    LinkedSourcesAreComplete(env, clock, Rows(s.audit));
    ImportReconciles(env, clock, digest, s, claimBefore, r);
  }

  // ---- A source that is imported and does not reconcile ----------------------------------------

  /** An event without actor_id. */
  function Anonymous(): Json {
    Obj(map["action_id" := Str("a"), "action_type" := Str("a"), "resource_type" := Str("a"), "resource_id" := Str("a"),
            "old_status" := Str("a"), "new_status" := Str("a"), "event" := Str("a"), "timestamp" := Str("a"),
            "details" := Obj(map[])])
  }

  lemma AnonymousIsFilled(now: string)
    ensures EventFields(Anonymous(), now).Some? && EventFields(Anonymous(), now).value != Anonymous()
  {
    assert "actor_id" in EventFields(Anonymous(), now).value.fields && "actor_id" !in Anonymous().fields;
  }

  lemma HashedAsFilled(stored: Json) returns (env: Env, row: AuditRow)
    requires stored.Obj? && EventFields(stored, "").Some? && EventFields(stored, "").value != stored
    ensures row.sequence == 1
    ensures DiagnosticOk(env, (i: nat) => "", [row], 0) && !LinkOk(env, [row], 0)
  {
    var (zeros, ones) := (seq(64, i => '0'), seq(64, i => '1'));
    assert IsHex64(zeros) && IsHex64(ones) && zeros[0] != ones[0];
    var (h0: Hex64, h1: Hex64) := (zeros, ones);
    env := Env((j: Json) => Some(if j == stored then [0] else [1]), (b: Bytes) => if b == [0, 1] then h1 else h0);
    row := AuditRow(1, Decoded(stored), h1);
    assert LinkInput("", [1]) == [0, 1] && LinkInput("", [0]) == [0, 0];
  }

  function OneRow(row: AuditRow): Sources {
    Sources([SourceRow(row, map[])], [], [], [])
  }

  lemma OneRowIsValid(env: Env, clock: nat -> string, row: AuditRow)
    requires row.sequence == 1 && DiagnosticOk(env, clock, [row], 0)
    ensures SourcesValid(env, clock, OneRow(row)) && AllColumnsRequired(OneRow(row)) && Rows(OneRow(row).audit) == [row]
  {
    assert Rows(OneRow(row).audit) == [row];
  }

  /** One row, hashed over the event that reading it rebuilds, is a valid source with just the required
      columns, and its stored JSON does not link. */
  lemma IncompleteSourceNeedNotLink() returns (env: Env, clock: nat -> string, s: Sources)
    ensures SourcesValid(env, clock, s) && AllColumnsRequired(s) && !Linked(env, Rows(s.audit))
  {
    AnonymousIsFilled("");
    var row;
    env, row := HashedAsFilled(Anonymous());
    clock := (i: nat) => "";
    s := OneRow(row);
    OneRowIsValid(env, clock, row);
  }
}
