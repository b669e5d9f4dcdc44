/** The shared action-plan store: creation orders, compare-and-swap, all-or-nothing batches. */
module PlanStore {
  import opened Outcomes
  import opened AuditChain
  import opened AuditTrails
  import opened Orders
  import opened ActionPlans

  datatype PlanRow = PlanRow(tenant: Option<string>, plan: Plan, order: int)

  /** action_plans and the last_created_order of action_plan_state. */
  datatype PlanTable = PlanTable(rows: map<string, PlanRow>, lastOrder: int)

  datatype SaveError = ModifiedByAnother | OwnershipChanged | AuditFailed(error: AuditError)

  function SaveOne(t: PlanTable, plan: Plan, tenant: Option<string>, expected: Option<Status>)
    : Result<PlanTable, SaveError>
  {
    var id := plan.proposal.actionId;
    if id !in t.rows then
      Ok(PlanTable(t.rows[id := PlanRow(tenant, plan, t.lastOrder + 1)], t.lastOrder + 1))
    else if expected.Some? && t.rows[id].plan.status != expected.value then Err(ModifiedByAnother)
    else if expected.Some? && t.rows[id].tenant != tenant then Err(OwnershipChanged)
    else Ok(t.(rows := t.rows[id := PlanRow(tenant, plan, t.rows[id].order)]))
  }

  /** A save is refused exactly when a stored row is expected to be in another status, or else under another
      owner; otherwise it stores plan and tenant, a new row under the next order and an old one under its own. */
  lemma SaveAnswers(t: PlanTable, plan: Plan, tenant: Option<string>, expected: Option<Status>)
    ensures var (r, id) := (SaveOne(t, plan, tenant, expected), plan.proposal.actionId);
            var checked := id in t.rows && expected.Some?;
            && (r == Err(ModifiedByAnother) <==> checked && t.rows[id].plan.status != expected.value)
            && (r == Err(OwnershipChanged) <==>
                  checked && t.rows[id].plan.status == expected.value && t.rows[id].tenant != tenant)
            && (r.Err? ==> !r.error.AuditFailed?)
            && (r.Ok? ==>
                  var u := r.value;
                  && u.rows.Keys == t.rows.Keys + {id}
                  && (forall k :: k in t.rows && k != id ==> u.rows[k] == t.rows[k])
                  && u.rows[id].plan == plan && u.rows[id].tenant == tenant
                  && (id in t.rows ==> u.rows[id].order == t.rows[id].order && u.lastOrder == t.lastOrder)
                  && (id !in t.rows ==> u.rows[id].order == u.lastOrder == t.lastOrder + 1))
  {
  }

  function SaveAll(t: PlanTable, plans: seq<Plan>, tenant: Option<string>, expected: Option<Status>)
    : Result<PlanTable, SaveError>
    decreases |plans|
  {
    if plans == [] then Ok(t)
    else
      match SaveOne(t, plans[0], tenant, expected)
      case Err(e) => Err(e)
      case Ok(u) => SaveAll(u, plans[1..], tenant, expected)
  }

  /** One save_many transaction with its audit events: everything commits, or nothing does. */
  function Save(env: Env, chain: Chain, t: PlanTable, plans: seq<Plan>, tenant: Option<string>,
                events: seq<AuditEvent>, expected: Option<Status>): Result<(Chain, PlanTable), SaveError>
  {
    match SaveAll(t, plans, tenant, expected)
    case Err(e) => Err(e)
    case Ok(u) =>
      match AppendAll(env, chain, events)
      case Err(e) => Err(AuditFailed(e))
      case Ok(extended) => Ok((extended, u))
  }

  class ActionPlanStore {
    var rows: map<string, PlanRow>
    var lastOrder: int

    constructor ()
      ensures Contents() == PlanTable(map[], 0)
    {
      rows, lastOrder := map[], 0;
    }

    function Contents(): PlanTable
      reads this
    {
      PlanTable(rows, lastOrder)
    }

    /** _save_many_locked: the allocator counter is a local until the batch is through. */
    method SaveMany(plans: seq<Plan>, tenant: Option<string>, trail: PersistentAuditTrail,
                    events: seq<AuditEvent>, expected: Option<Status>) returns (r: Result<(), SaveError>)
      modifies this, trail
      ensures match Save(trail.env, old(trail.Contents()), old(Contents()), plans, tenant, events, expected)
              case Ok((chain, table)) => r == Ok(()) && trail.Contents() == chain && Contents() == table
              case Err(e) =>
                r.Err? && (e.AuditFailed? <==> r.error.AuditFailed?) && (!e.AuditFailed? ==> r.error == e)
                && trail.Contents() == old(trail.Contents()) && Contents() == old(Contents())
    {
      ghost var start := Contents();
      var saved := rows;
      var counter := lastOrder;
      for i := 0 to |plans|
        invariant lastOrder == old(lastOrder) && trail.Contents() == old(trail.Contents())
        invariant SaveAll(start, plans, tenant, expected)
                  == SaveAll(PlanTable(rows, counter), plans[i..], tenant, expected)
      {
        ghost var before := PlanTable(rows, counter);
        assert plans[i..][0] == plans[i] && plans[i..][1..] == plans[i + 1..];
        var id := plans[i].proposal.actionId;
        if id !in rows {
          counter := counter + 1;
          rows := rows[id := PlanRow(tenant, plans[i], counter)];
        } else {
          if expected.Some? {
            if rows[id].plan.status != expected.value {
              rows := saved;
              return Err(ModifiedByAnother);
            }
            if rows[id].tenant != tenant {
              rows := saved;
              return Err(OwnershipChanged);
            }
          }
          rows := rows[id := PlanRow(tenant, plans[i], rows[id].order)];
        }
        assert SaveOne(before, plans[i], tenant, expected) == Ok(PlanTable(rows, counter));
      }
      var recorded := trail.RecordInCallerTransaction(events, true);
      if recorded.Err? {
        rows := saved;
        return Err(AuditFailed(recorded.error));
      }
      lastOrder := counter;
      r := Ok(());
    }
  }

  /** The position of the last plan of the batch with this id. */
  ghost predicate LastOf(plans: seq<Plan>, id: string, i: nat) {
    i < |plans| && plans[i].proposal.actionId == id && forall j :: i < j < |plans| ==> plans[j].proposal.actionId != id
  }

  ghost predicate Mentions(plans: seq<Plan>, id: string) {
    exists i :: 0 <= i < |plans| && plans[i].proposal.actionId == id
  }

  /** A batch that is saved stores, under each of its ids, the last plan with that id, and leaves every other
      row as it was. */
  lemma {:induction false} BatchStoresItsPlans(t: PlanTable, plans: seq<Plan>, tenant: Option<string>,
                                               expected: Option<Status>)
    requires SaveAll(t, plans, tenant, expected).Ok?
    ensures var u := SaveAll(t, plans, tenant, expected).value;
            && t.rows.Keys <= u.rows.Keys
            && (forall id, i: nat :: LastOf(plans, id, i) ==>
                  id in u.rows && u.rows[id].plan == plans[i] && u.rows[id].tenant == tenant)
            && (forall id :: id in u.rows && !Mentions(plans, id) ==> id in t.rows && u.rows[id] == t.rows[id])
    decreases |plans|
  {
    if plans != [] {
      SaveAnswers(t, plans[0], tenant, expected);
      var (between, rest) := (SaveOne(t, plans[0], tenant, expected).value, plans[1..]);
      BatchStoresItsPlans(between, rest, tenant, expected);
      var u := SaveAll(between, rest, tenant, expected).value;
      forall id, i: nat | LastOf(plans, id, i)
        ensures id in u.rows && u.rows[id].plan == plans[i] && u.rows[id].tenant == tenant
      {
        if i > 0 {
          assert LastOf(rest, id, i - 1) by { assert forall j :: i - 1 < j < |rest| ==> rest[j] == plans[j + 1]; }
        } else {
          assert !Mentions(rest, id) by { assert forall j :: 0 <= j < |rest| ==> rest[j] == plans[j + 1]; }
        }
      }
      forall id | id in u.rows && !Mentions(plans, id) ensures id in t.rows && u.rows[id] == t.rows[id] {
        assert !Mentions(rest, id) by { assert forall j :: 0 <= j < |rest| ==> rest[j] == plans[j + 1]; }
      }
    }
  }

  // ---- The order allocator ------------------------------------------------------------

  function OrdersOf(t: PlanTable): map<string, int> {
    map id | id in t.rows :: t.rows[id].order
  }

  ghost predicate TableOk(t: PlanTable) {
    && OrdersOk(OrdersOf(t), t.lastOrder)
    && forall id :: id in t.rows ==> t.rows[id].plan.proposal.actionId == id
  }

  /** Rows are never deleted and never get another order. */
  ghost predicate OrdersKept(t: PlanTable, u: PlanTable) {
    && t.lastOrder <= u.lastOrder
    && forall id :: id in t.rows ==> id in u.rows && u.rows[id].order == t.rows[id].order
  }

  lemma InsertKeepsOrders(t: PlanTable, id: string, row: PlanRow)
    requires TableOk(t) && id !in t.rows && row.plan.proposal.actionId == id && row.order == t.lastOrder + 1
    ensures var u := PlanTable(t.rows[id := row], t.lastOrder + 1); TableOk(u) && OrdersKept(t, u)
  {
    assert OrdersOf(PlanTable(t.rows[id := row], t.lastOrder + 1)) == OrdersOf(t)[id := t.lastOrder + 1];
    NextOrderIsFree(OrdersOf(t), t.lastOrder, id);
  }

  lemma UpdateKeepsOrders(t: PlanTable, id: string, row: PlanRow)
    requires TableOk(t) && id in t.rows && row.plan.proposal.actionId == id && row.order == t.rows[id].order
    ensures var u := t.(rows := t.rows[id := row]); TableOk(u) && OrdersKept(t, u)
  {
    assert OrdersOf(t.(rows := t.rows[id := row])) == OrdersOf(t);
  }

  lemma SaveOneKeepsOrders(t: PlanTable, plan: Plan, tenant: Option<string>, expected: Option<Status>)
    requires TableOk(t) && SaveOne(t, plan, tenant, expected).Ok?
    ensures TableOk(SaveOne(t, plan, tenant, expected).value)
    ensures OrdersKept(t, SaveOne(t, plan, tenant, expected).value)
  {
    var id := plan.proposal.actionId;
    if id in t.rows {
      UpdateKeepsOrders(t, id, PlanRow(tenant, plan, t.rows[id].order));
    } else {
      InsertKeepsOrders(t, id, PlanRow(tenant, plan, t.lastOrder + 1));
    }
  }

  lemma {:induction false} SaveAllKeepsOrders(t: PlanTable, plans: seq<Plan>, tenant: Option<string>,
                                              expected: Option<Status>)
    requires TableOk(t) && SaveAll(t, plans, tenant, expected).Ok?
    ensures TableOk(SaveAll(t, plans, tenant, expected).value)
    ensures OrdersKept(t, SaveAll(t, plans, tenant, expected).value)
    decreases |plans|
  {
    if plans != [] {
      SaveOneKeepsOrders(t, plans[0], tenant, expected);
      SaveAllKeepsOrders(SaveOne(t, plans[0], tenant, expected).value, plans[1..], tenant, expected);
    }
  }

  /** Any save_many call, with or without compare-and-swap and audit events. */
  datatype Batch = Batch(plans: seq<Plan>, tenant: Option<string>, events: seq<AuditEvent>, expected: Option<Status>)

  /** Any run of batches; an aborted batch leaves both tables alone. */
  function RunBatches(env: Env, chain: Chain, t: PlanTable, batches: seq<Batch>): (Chain, PlanTable)
    decreases |batches|
  {
    if batches == [] then (chain, t)
    else
      var b := batches[0];
      match Save(env, chain, t, b.plans, b.tenant, b.events, b.expected)
      case Ok((extended, u)) => RunBatches(env, extended, u, batches[1..])
      case Err(_) => RunBatches(env, chain, t, batches[1..])
  }

  /** Over all runs, updates, repeated ids and aborted batches included: orders are pairwise distinct,
      lie in 1..last_created_order, and never change. */
  lemma {:induction false} OrdersHoldInEveryRun(env: Env, chain: Chain, t: PlanTable, batches: seq<Batch>)
    requires TableOk(t)
    ensures TableOk(RunBatches(env, chain, t, batches).1)
    ensures OrdersKept(t, RunBatches(env, chain, t, batches).1)
    decreases |batches|
  {
    if batches != [] {
      var b := batches[0];
      var r := Save(env, chain, t, b.plans, b.tenant, b.events, b.expected);
      if r.Ok? {
        SaveAllKeepsOrders(t, b.plans, b.tenant, b.expected);
        OrdersHoldInEveryRun(env, r.value.0, r.value.1, batches[1..]);
      } else {
        OrdersHoldInEveryRun(env, chain, t, batches[1..]);
      }
    }
  }

  /** load_all(tenant, tenant_scoped=True): the rows of one tenant by creation order. */
  function TenantOrders(t: PlanTable, tenant: string): map<string, int> {
    map id | id in t.rows && t.rows[id].tenant == Some(tenant) :: t.rows[id].order
  }

  function TenantRows(t: PlanTable, tenant: string): set<string> {
    set id | id in t.rows && t.rows[id].tenant == Some(tenant)
  }

  lemma EarlierLoad(t: PlanTable, u: PlanTable, full: seq<string>, earlier: seq<string>)
    requires OrdersKept(t, u) && InOrder(OrdersOf(t), earlier) && InOrder(OrdersOf(u), full)
    ensures earlier == Filter(full, t.rows.Keys)
  {
    ScopedLoadIsFilter(OrdersOf(u), OrdersOf(t), t.rows.Keys, full, earlier);
  }

  lemma TenantLoad(t: PlanTable, tenant: string, full: seq<string>, scoped: seq<string>)
    requires InOrder(OrdersOf(t), full) && InOrder(TenantOrders(t, tenant), scoped)
    ensures scoped == Filter(full, TenantRows(t, tenant))
  {
    ScopedLoadIsFilter(OrdersOf(t), TenantOrders(t, tenant), TenantRows(t, tenant), full, scoped);
  }

  /** So every load is deterministic, a later load keeps the relative order of the plans an earlier
      one listed, and a tenant-scoped load is the order-preserving filter of the full one. */
  lemma LoadsAgree(env: Env, chain: Chain, t: PlanTable, batches: seq<Batch>, tenant: string,
                   full: seq<string>, again: seq<string>, scoped: seq<string>, earlier: seq<string>)
    requires TableOk(t) && InOrder(OrdersOf(t), earlier)
    requires var u := RunBatches(env, chain, t, batches).1;
             InOrder(OrdersOf(u), full) && InOrder(OrdersOf(u), again) && InOrder(TenantOrders(u, tenant), scoped)
    ensures again == full
    ensures earlier == Filter(full, t.rows.Keys)
    ensures scoped == Filter(full, TenantRows(RunBatches(env, chain, t, batches).1, tenant))
  {
    OrdersHoldInEveryRun(env, chain, t, batches);
    var u := RunBatches(env, chain, t, batches).1;
    InOrderIsUnique(OrdersOf(u), full, again);
    EarlierLoad(t, u, full, earlier);
    TenantLoad(u, tenant, full, scoped);
  }
}
