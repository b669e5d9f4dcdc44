/** The plan endpoints over shared SQL, as programs and as a system of stale workers. */
module PlanLifecycle {
  import opened Outcomes
  import opened JsonValues
  import opened AuditChain
  import opened AuditTrails
  import opened Histories
  import opened ActionPlans
  import opened PlanStore

  /** What an endpoint takes from its HTTP request and its process: the tenant scope, the principal,
      the tenant its possibly outdated cache remembers, and the event timestamp. */
  datatype Request = Request(scope: Option<string>, actor: Option<string>, cached: Option<string>, stamp: string)

  function TenantDetails(scope: Option<string>): map<string, Json> {
    if scope.Some? then map["tenant_id" := Str(scope.value)] else map[]
  }

  function PlanEvent(p: Proposal, oldText: string, newText: string, name: string, scope: Option<string>,
                     actor: Option<string>, stamp: string): AuditEvent
  {
    AuditEvent(p.actionId, p.actionType, p.resourceType, p.resourceId, oldText, newText, name, stamp,
               TenantDetails(scope), actor)
  }

  /** _record_plan_transition. */
  function TransitionEvent(before: Plan, after: Plan, r: Request): AuditEvent {
    PlanEvent(after.proposal, StatusText(before.status), StatusText(after.status),
              "plan_" + StatusText(after.status), r.scope, r.actor, r.stamp)
  }

  /** The event of _plan_response. */
  function CreationEvent(plan: Plan, r: Request): AuditEvent {
    PlanEvent(plan.proposal, "none", StatusText(plan.status), "plan_created", r.scope, r.actor, r.stamp)
  }

  /** The event names plan, transition, principal and tenant of the request. */
  lemma TransitionEventSays(before: Plan, after: Plan, r: Request)
    ensures var (p, e) := (after.proposal, TransitionEvent(before, after, r));
            && e.actionId == p.actionId && e.actionType == p.actionType
            && e.resourceType == p.resourceType && e.resourceId == p.resourceId
            && e.oldStatus == StatusText(before.status) && e.newStatus == StatusText(after.status)
            && e.actorId == r.actor && e.timestamp == r.stamp
            && (r.scope.Some? ==> e.details == map["tenant_id" := Str(r.scope.value)])
            && (r.scope.None? ==> e.details == map[])
    ensures var name := TransitionEvent(before, after, r).event;
            && (after.status.PendingApproval? ==> name == "plan_pending_approval")
            && (after.status.Approved? ==> name == "plan_approved")
            && (after.status.Rejected? ==> name == "plan_rejected")
            && (after.status.Cancelled? ==> name == "plan_cancelled")
            && (after.status.Succeeded? ==> name == "plan_succeeded")
  {
  }

  /** The tenant _persist_plan writes: the request's scope if it has one, else the cached owner. */
  function WrittenTenant(r: Request): Option<string> {
    if r.scope.Some? then r.scope else r.cached
  }

  /** One endpoint call on a plan read earlier: None where it is refused or its transaction fails. */
  function ActOn(env: Env, chain: Chain, t: PlanTable, read: Plan, op: Op, r: Request): Option<(Chain, PlanTable)> {
    match Decide(read, op)
    case None => None
    case Some(after) =>
      match Save(env, chain, t, [after], WrittenTenant(r), [TransitionEvent(read, after, r)], Some(read.status))
      case Ok(committed) => Some(committed)
      case Err(_) => None
  }

  class PlanEndpoints {
    const store: ActionPlanStore
    const trail: PersistentAuditTrail

    constructor (store: ActionPlanStore, trail: PersistentAuditTrail)
      ensures this.store == store && this.trail == trail
    {
      this.store, this.trail := store, trail;
    }

    /** evaluate / approve / reject / cancel / execute after _get_plan: change the plan in place,
        persist it with its event, and undo the change if that fails. */
    method Act(action: ActionPlan, op: Op, r: Request) returns (ok: bool)
      modifies action, store, trail
      ensures var outcome := ActOn(trail.env, old(trail.Contents()), old(store.Contents()), old(action.View()), op, r);
              && (ok <==> outcome.Some?)
              && (ok ==> (trail.Contents(), store.Contents()) == outcome.value
                         && Some(action.View()) == Decide(old(action.View()), op))
      ensures ok ==> Admitted(old(action.View()), op) && DecidedAs(old(action.View()), op, action.View())
      ensures !ok ==> trail.Contents() == old(trail.Contents()) && store.Contents() == old(store.Contents())
                      && action.View() == old(action.View())
    {
      var before := action.View();
      DecisionsAreRecorded(before, op);
      var performed := Perform(action, op);
      if !performed { return false; }
      var after := action.View();
      var saved := store.SaveMany([after], WrittenTenant(r), trail, [TransitionEvent(before, after, r)],
                                  Some(before.status));
      if saved.Err? {
        action.Restore(before);
        return false;
      }
      ok := true;
    }
  }

  // ---- Histories of plans -----------------------------------------------------------

  predicate StartsWith(s: string, prefix: string) {
    prefix <= s
  }

  function Concerns(id: string): Entry -> bool {
    (e: Entry) => StartsWith(e.name, "plan_") && e.actionId == id
  }

  function PlanHistory(rows: seq<AuditRow>, id: string): seq<Entry> {
    History(rows, Concerns(id))
  }

  /** The transitions the endpoints make, by their audit texts. */
  predicate LegalEntry(e: Entry) {
    && e.name == "plan_" + e.newStatus && e.oldStatus != "none"
    && (|| e.newStatus == "pending_approval"
        || (e.oldStatus == "pending_approval" && e.newStatus in {"approved", "rejected", "cancelled"})
        || (e.oldStatus == "approved" && e.newStatus == "succeeded"))
  }

  predicate Creates(e: Entry) {
    e.name == "plan_created" && e.oldStatus == "none" && e.newStatus == "planned"
  }

  /** Linked legal transitions (or a creation, from "none") that lead from one status to another. */
  ghost predicate LegalPath(h: seq<Entry>, first: string, last: string) {
    PathBetween(h, first, last) && forall i :: 0 <= i < |h| ==> Creates(h[i]) || LegalEntry(h[i])
  }

  /** The stored status as the audit events call it; "none" where there is no such plan. */
  function StoredStatus(t: PlanTable, id: string): string {
    if id in t.rows then StatusText(t.rows[id].plan.status) else "none"
  }

  /** What was added to a history. */
  function Added(h0: seq<Entry>, h: seq<Entry>): seq<Entry>
    requires |h0| <= |h|
  {
    h[|h0|..]
  }

  /** The entries added to this plan's history form a legal path from its former to its stored status. */
  ghost predicate Continues(rows0: seq<AuditRow>, t0: PlanTable, rows: seq<AuditRow>, t: PlanTable, id: string) {
    var (h0, h) := (PlanHistory(rows0, id), PlanHistory(rows, id));
    h0 <= h && LegalPath(Added(h0, h), StoredStatus(t0, id), StoredStatus(t, id))
  }

  ghost predicate HistoriesContinue(rows0: seq<AuditRow>, t0: PlanTable, rows: seq<AuditRow>, t: PlanTable) {
    forall id :: Continues(rows0, t0, rows, t, id)
  }

  /** A good log and table, reached from `o`. */
  ghost predicate Good(o: Database, d: Database) {
    HeadOk(d.chain) && TableOk(d.table) && HistoriesContinue(o.chain.rows, o.table, d.chain.rows, d.table)
  }

  /** The two shared tables. */
  datatype Database = Database(chain: Chain, table: PlanTable)

  /** Rows keep their creation order and their owner. */
  ghost predicate OwnershipKept(t: PlanTable, u: PlanTable) {
    OrdersKept(t, u) && forall id :: id in t.rows ==> id in u.rows && u.rows[id].tenant == t.rows[id].tenant
  }

  /** What no step undoes: the log grows by rows that recompute, and rows keep order and owner. */
  ghost predicate Grows(env: Env, d: Database, e: Database) {
    GrownFrom(env, d.chain.rows, e.chain.rows) && OwnershipKept(d.table, e.table)
  }

  lemma GrowthChains(env: Env, a: Database, b: Database, c: Database)
    requires Grows(env, a, b) && Grows(env, b, c)
    ensures Grows(env, a, c)
  {
    GrownChains(env, a.chain.rows, b.chain.rows, c.chain.rows);
  }

  lemma PathExtended(h: seq<Entry>, first: string, last: string, e: Entry)
    requires LegalPath(h, first, last) && (Creates(e) || LegalEntry(e)) && e.oldStatus == last
    ensures LegalPath(h + [e], first, e.newStatus)
  {
  }

  lemma DecisionIsLegal(p: Plan, op: Op, r: Request)
    requires Decide(p, op).Some?
    ensures var after := Decide(p, op).value;
            var e := EventEntry(TransitionEvent(p, after, r));
            && after.proposal == p.proposal
            && LegalEntry(e) && e.actionId == p.proposal.actionId
            && e.oldStatus == StatusText(p.status) && e.newStatus == StatusText(after.status)
            && StartsWith(e.name, "plan_")
  {
    var after := Decide(p, op).value;
    var e := EventEntry(TransitionEvent(p, after, r));
    assert e.name == "plan_" + StatusText(after.status);
    assert "plan_" <= e.name;
    assert StatusText(p.status)[0] != 'n';
  }

  lemma SingleSave(env: Env, chain: Chain, t: PlanTable, plan: Plan, tenant: Option<string>, e: AuditEvent,
                   expected: Option<Status>)
    ensures Save(env, chain, t, [plan], tenant, [e], expected).Ok? <==>
              SaveOne(t, plan, tenant, expected).Ok? && TryAppend(env, chain, e).Ok?
    ensures Save(env, chain, t, [plan], tenant, [e], expected).Ok? ==>
              Save(env, chain, t, [plan], tenant, [e], expected).value
              == (TryAppend(env, chain, e).value, SaveOne(t, plan, tenant, expected).value)
  {
    var (plans, events) := ([plan], [e]);
    assert plans[1..] == [] && events[1..] == [];
    assert SaveAll(t, plans, tenant, expected) == SaveOne(t, plan, tenant, expected);
    var r := TryAppend(env, chain, e);
    if r.Ok? { assert AppendAll(env, r.value, events[1..]) == Ok(r.value); }
    assert AppendAll(env, chain, events) == r;
  }

  /** The log after one more event: good, grown by a row that recomputes, and longer by the entry in just
      its own plan's history. */
  ghost predicate Extends(env: Env, before: Chain, after: Chain, entry: Entry) {
    && HeadOk(after) && GrownFrom(env, before.rows, after.rows)
    && forall id :: PlanHistory(after.rows, id)
         == PlanHistory(before.rows, id)
            + if StartsWith(entry.name, "plan_") && entry.actionId == id then [entry] else []
  }

  lemma AppendExtends(env: Env, chain: Chain, e: AuditEvent)
    requires HeadOk(chain) && TryAppend(env, chain, e).Ok?
    ensures Extends(env, chain, TryAppend(env, chain, e).value, EventEntry(e))
  {
    AppendKeepsHead(env, chain, e);
    var after := TryAppend(env, chain, e).value;
    forall id
      ensures PlanHistory(after.rows, id)
              == PlanHistory(chain.rows, id)
                 + if StartsWith(e.event, "plan_") && e.actionId == id then [EventEntry(e)] else []
    {
      AppendExtendsHistory(env, chain, e, Concerns(id));
    }
  }

  /** One entry of plan `id` that leads from its stored to its new status keeps every history in step. */
  lemma HistoriesExtend(env: Env, o: Database, d: Database, after: Chain, u: PlanTable, entry: Entry, id: string)
    requires HistoriesContinue(o.chain.rows, o.table, d.chain.rows, d.table) && Extends(env, d.chain, after, entry)
    requires StartsWith(entry.name, "plan_") && entry.actionId == id && (Creates(entry) || LegalEntry(entry))
    requires entry.oldStatus == StoredStatus(d.table, id) && entry.newStatus == StoredStatus(u, id)
    requires forall k :: k != id ==> StoredStatus(u, k) == StoredStatus(d.table, k)
    ensures HistoriesContinue(o.chain.rows, o.table, after.rows, u)
  {
    forall k ensures Continues(o.chain.rows, o.table, after.rows, u, k) {
      assert Continues(o.chain.rows, o.table, d.chain.rows, d.table, k);
      var (h0, h) := (PlanHistory(o.chain.rows, k), PlanHistory(d.chain.rows, k));
      if k == id {
        PathExtended(Added(h0, h), StoredStatus(o.table, k), StoredStatus(d.table, k), entry);
        assert Added(h0, h + [entry]) == Added(h0, h) + [entry];
      } else {
        assert PlanHistory(after.rows, k) == h;
      }
    }
  }

  /** What a successful compare-and-swap tells about the stored row. */
  lemma SwapContract(t: PlanTable, before: Plan, after: Plan, tenant: Option<string>)
    requires before.proposal == after.proposal && before.proposal.actionId in t.rows
    requires SaveOne(t, after, tenant, Some(before.status)).Ok?
    ensures var (id, u) := (before.proposal.actionId, SaveOne(t, after, tenant, Some(before.status)).value);
            && t.rows[id].plan.status == before.status && t.rows[id].tenant == tenant
            && u.rows == t.rows[id := PlanRow(tenant, after, t.rows[id].order)] && u.lastOrder == t.lastOrder
  {
  }

  lemma CommitKeepsHistories(env: Env, o: Database, d: Database, before: Plan, after: Plan, e: AuditEvent,
                             tenant: Option<string>)
    requires Good(o, d) && before.proposal.actionId in d.table.rows && before.proposal == after.proposal
    requires LegalEntry(EventEntry(e)) && StartsWith(e.event, "plan_") && e.actionId == before.proposal.actionId
    requires e.oldStatus == StatusText(before.status) && e.newStatus == StatusText(after.status)
    requires Save(env, d.chain, d.table, [after], tenant, [e], Some(before.status)).Ok?
    ensures var (extended, u) := Save(env, d.chain, d.table, [after], tenant, [e], Some(before.status)).value;
            Good(o, Database(extended, u)) && Grows(env, d, Database(extended, u))
  {
    var (t, id) := (d.table, before.proposal.actionId);
    SingleSave(env, d.chain, t, after, tenant, e, Some(before.status));
    SwapContract(t, before, after, tenant);
    SaveOneKeepsOrders(t, after, tenant, Some(before.status));
    AppendExtends(env, d.chain, e);
    HistoriesExtend(env, o, d, TryAppend(env, d.chain, e).value, SaveOne(t, after, tenant, Some(before.status)).value,
                    EventEntry(e), id);
  }

  /** A committed transition extends its own plan's path by one legal step and no other's. */
  lemma ActKeepsHistories(env: Env, o: Database, d: Database, read: Plan, op: Op, r: Request)
    requires Good(o, d) && read.proposal.actionId in d.table.rows
    requires ActOn(env, d.chain, d.table, read, op, r).Some?
    ensures var (extended, u) := ActOn(env, d.chain, d.table, read, op, r).value;
            Good(o, Database(extended, u)) && Grows(env, d, Database(extended, u))
  {
    var after := Decide(read, op).value;
    DecisionIsLegal(read, op, r);
    CommitKeepsHistories(env, o, d, read, after, TransitionEvent(read, after, r), WrittenTenant(r));
  }

  function CreatedEntry(plan: Plan): Entry {
    Entry("plan_created", plan.proposal.actionId, plan.proposal.resourceId, "none", "planned")
  }

  lemma CreatedRow(t: PlanTable, plan: Plan, tenant: Option<string>)
    requires plan.proposal.actionId !in t.rows && plan.status.Planned?
    ensures var (id, u, e) := (plan.proposal.actionId, SaveOne(t, plan, tenant, None).value, CreatedEntry(plan));
            && Creates(e) && StartsWith(e.name, "plan_") && e.actionId == id
            && e.oldStatus == StoredStatus(t, id) && e.newStatus == StoredStatus(u, id)
            && (forall k :: k != id ==> StoredStatus(u, k) == StoredStatus(t, k))
            && (OrdersKept(t, u) ==> OwnershipKept(t, u))
  {
  }

  /** Creating one plan under a fresh id. */
  lemma CreateOneKeepsHistories(env: Env, o: Database, d: Database, plan: Plan, tenant: Option<string>, e: AuditEvent)
    requires Good(o, d) && plan.proposal.actionId !in d.table.rows && plan.status.Planned?
    requires EventEntry(e) == CreatedEntry(plan) && TryAppend(env, d.chain, e).Ok?
    ensures var after := Database(TryAppend(env, d.chain, e).value, SaveOne(d.table, plan, tenant, None).value);
            Good(o, after) && Grows(env, d, after)
  {
    var u := SaveOne(d.table, plan, tenant, None).value;
    SaveOneKeepsOrders(d.table, plan, tenant, None);
    AppendExtends(env, d.chain, e);
    CreatedRow(d.table, plan, tenant);
    HistoriesExtend(env, o, d, TryAppend(env, d.chain, e).value, u, EventEntry(e), plan.proposal.actionId);
  }

  function CreationEvents(plans: seq<Plan>, r: Request): (events: seq<AuditEvent>)
    ensures |events| == |plans|
  {
    seq(|plans|, i requires 0 <= i < |plans| => CreationEvent(plans[i], r))
  }

  /** The planner's output: new plans under fresh, distinct ids. */
  predicate FreshPlans(t: PlanTable, plans: seq<Plan>) {
    && (forall i :: 0 <= i < |plans| ==> plans[i].status.Planned? && plans[i].proposal.actionId !in t.rows)
    && (forall i, j :: 0 <= i < j < |plans| ==> plans[i].proposal.actionId != plans[j].proposal.actionId)
  }

  /** events[i] announces plans[i]. */
  predicate Announces(plans: seq<Plan>, events: seq<AuditEvent>) {
    |plans| == |events| && forall i :: 0 <= i < |plans| ==> EventEntry(events[i]) == CreatedEntry(plans[i])
  }

  lemma FreshRest(t: PlanTable, u: PlanTable, plans: seq<Plan>, tenant: Option<string>)
    requires FreshPlans(t, plans) && plans != [] && Ok(u) == SaveOne(t, plans[0], tenant, None)
    ensures FreshPlans(u, plans[1..])
  {
    assert forall i :: 0 <= i < |plans[1..]| ==> plans[1..][i] == plans[i + 1];
  }

  lemma AnnouncesRest(plans: seq<Plan>, events: seq<AuditEvent>)
    requires Announces(plans, events) && plans != []
    ensures Announces(plans[1..], events[1..])
  {
  }

  lemma {:induction false} CreateKeepsHistories(env: Env, o: Database, d: Database, plans: seq<Plan>,
                                                tenant: Option<string>, events: seq<AuditEvent>)
    requires Good(o, d) && FreshPlans(d.table, plans) && Announces(plans, events)
    requires AppendAll(env, d.chain, events).Ok? && SaveAll(d.table, plans, tenant, None).Ok?
    ensures var after := Database(AppendAll(env, d.chain, events).value, SaveAll(d.table, plans, tenant, None).value);
            Good(o, after) && Grows(env, d, after)
    decreases |plans|
  {
    if plans != [] {
      assert EventEntry(events[0]) == CreatedEntry(plans[0]);
      CreateOneKeepsHistories(env, o, d, plans[0], tenant, events[0]);
      var next := Database(TryAppend(env, d.chain, events[0]).value, SaveOne(d.table, plans[0], tenant, None).value);
      FreshRest(d.table, next.table, plans, tenant);
      AnnouncesRest(plans, events);
      CreateKeepsHistories(env, o, next, plans[1..], tenant, events[1..]);
      GrowthChains(env, d, next,
                   Database(AppendAll(env, d.chain, events).value, SaveAll(d.table, plans, tenant, None).value));
    }
  }

  /** Saving fresh plans without an expected status never fails. */
  lemma {:induction false} FreshPlansSave(t: PlanTable, plans: seq<Plan>, tenant: Option<string>)
    requires FreshPlans(t, plans)
    ensures SaveAll(t, plans, tenant, None).Ok?
    decreases |plans|
  {
    if plans != [] {
      var u := SaveOne(t, plans[0], tenant, None).value;
      FreshRest(t, u, plans, tenant);
      FreshPlansSave(u, plans[1..], tenant);
    }
  }

  lemma CreationEventSays(plan: Plan, r: Request)
    ensures var (p, e) := (plan.proposal, CreationEvent(plan, r));
            && e.event == "plan_created" && e.oldStatus == "none" && e.newStatus == StatusText(plan.status)
            && e.actionId == p.actionId && e.actionType == p.actionType
            && e.resourceType == p.resourceType && e.resourceId == p.resourceId
            && e.actorId == r.actor && e.timestamp == r.stamp
            && (r.scope.Some? ==> e.details == map["tenant_id" := Str(r.scope.value)])
            && (r.scope.None? ==> e.details == map[])
  {
  }

  lemma {:induction false} FreshPlansAreStored(t: PlanTable, plans: seq<Plan>, tenant: Option<string>)
    requires FreshPlans(t, plans) && SaveAll(t, plans, tenant, None).Ok?
    ensures var u := SaveAll(t, plans, tenant, None).value;
            && u.lastOrder == t.lastOrder + |plans|
            && (forall id :: id in t.rows ==> id in u.rows && u.rows[id] == t.rows[id])
            && (forall i :: 0 <= i < |plans| ==>
                  var id := plans[i].proposal.actionId;
                  id in u.rows && u.rows[id] == PlanRow(tenant, plans[i], t.lastOrder + 1 + i))
    decreases |plans|
  {
    if plans != [] {
      SaveAnswers(t, plans[0], tenant, None);
      var (between, rest) := (SaveOne(t, plans[0], tenant, None).value, plans[1..]);
      FreshRest(t, between, plans, tenant);
      FreshPlansAreStored(between, rest, tenant);
      var u := SaveAll(between, rest, tenant, None).value;
      forall i | 0 <= i < |plans|
        ensures var id := plans[i].proposal.actionId;
                id in u.rows && u.rows[id] == PlanRow(tenant, plans[i], t.lastOrder + 1 + i)
      {
        if i > 0 { assert rest[i - 1] == plans[i]; }
      }
    }
  }

  lemma EventsAreTold(env: Env, chain: Chain, events: seq<AuditEvent>)
    requires HeadOk(chain)
    ensures AppendAll(env, chain, events).Ok? <==> forall i :: 0 <= i < |events| ==> Recordable(env, events[i])
    ensures AppendAll(env, chain, events).Ok? ==>
              Tells(AppendAll(env, chain, events).value.rows, Journal(chain.rows, events))
  {
    AppendAllSucceeds(env, chain, events);
    if AppendAll(env, chain, events).Ok? {
      AppendAllTells(env, chain, events, Journal(chain.rows, []));
      assert [] + events == events;
    }
  }

  /** Creating fresh plans commits exactly when their events can all be recorded. The plans are then stored in
      the planner's order, each under the request's tenant, and the log says that each was created. */
  lemma CreationIsTold(env: Env, d: Database, plans: seq<Plan>, r: Request)
    requires HeadOk(d.chain) && FreshPlans(d.table, plans)
    ensures var (saved, events) := (Save(env, d.chain, d.table, plans, r.scope, CreationEvents(plans, r), None),
                                    CreationEvents(plans, r));
            && (saved.Ok? <==> forall i :: 0 <= i < |events| ==> Recordable(env, events[i]))
            && (saved.Ok? ==>
                  var (chain, u) := saved.value;
                  && Tells(chain.rows, Journal(d.chain.rows, events))
                  && (forall id :: id in d.table.rows ==> id in u.rows && u.rows[id] == d.table.rows[id])
                  && (forall i :: 0 <= i < |plans| ==>
                        var id := plans[i].proposal.actionId;
                        id in u.rows && u.rows[id] == PlanRow(r.scope, plans[i], d.table.lastOrder + 1 + i)))
  {
    FreshPlansSave(d.table, plans, r.scope);
    FreshPlansAreStored(d.table, plans, r.scope);
    EventsAreTold(env, d.chain, CreationEvents(plans, r));
  }

  // ---- The system ---------------------------------------------------------------------

  /** The database, and the plan each worker has read and not yet acted on. */
  datatype PlanSystem = PlanSystem(d: Database, loaded: map<nat, Plan>)

  datatype PlanStep =
    | Create(plans: seq<Plan>, r: Request)
    | Read(worker: nat, id: string)
    | Act(worker: nat, op: Op, r: Request)
    | Unrelated(e: AuditEvent)

  predicate Enabled(s: PlanSystem, step: PlanStep) {
    match step
    case Create(plans, _) => FreshPlans(s.d.table, plans)
    case Read(_, id) => id in s.d.table.rows
    case Act(worker, _, _) => worker in s.loaded
    case Unrelated(e) => !StartsWith(e.event, "plan_")
  }

  function Next(env: Env, s: PlanSystem, step: PlanStep): PlanSystem
    requires Enabled(s, step)
  {
    match step
    case Create(plans, r) =>
      (match Save(env, s.d.chain, s.d.table, plans, r.scope, CreationEvents(plans, r), None)
       case Ok((chain, table)) => s.(d := Database(chain, table))
       case Err(_) => s)
    case Read(worker, id) => s.(loaded := s.loaded[worker := s.d.table.rows[id].plan])
    case Act(worker, op, r) =>
      var t := s.(loaded := s.loaded - {worker});
      (match ActOn(env, s.d.chain, s.d.table, s.loaded[worker], op, r)
       case Some((chain, table)) => t.(d := Database(chain, table))
       case None => t)
    case Unrelated(e) =>
      var r := TryAppend(env, s.d.chain, e);
      if r.Ok? then s.(d := s.d.(chain := r.value)) else s
  }

  function Exec(env: Env, s: PlanSystem, steps: seq<PlanStep>): PlanSystem
    decreases |steps|
  {
    if steps == [] then s
    else Exec(env, if Enabled(s, steps[0]) then Next(env, s, steps[0]) else s, steps[1..])
  }

  ghost predicate Inv(o: Database, s: PlanSystem) {
    && Good(o, s.d)
    && forall w :: w in s.loaded ==> s.loaded[w].proposal.actionId in s.d.table.rows
  }

  /** A good log and table with whatever they hold, and no worker at work yet. */
  ghost predicate Start(s: PlanSystem) {
    HeadOk(s.d.chain) && TableOk(s.d.table) && s.loaded == map[]
  }

  lemma UnrelatedKeepsHistories(env: Env, o: Database, d: Database, e: AuditEvent)
    requires Good(o, d) && !StartsWith(e.event, "plan_") && TryAppend(env, d.chain, e).Ok?
    ensures var after := d.(chain := TryAppend(env, d.chain, e).value); Good(o, after) && Grows(env, d, after)
  {
    AppendExtends(env, d.chain, e);
    var after := TryAppend(env, d.chain, e).value;
    forall k ensures Continues(o.chain.rows, o.table, after.rows, d.table, k) {
      assert Continues(o.chain.rows, o.table, d.chain.rows, d.table, k);
      assert PlanHistory(after.rows, k) == PlanHistory(d.chain.rows, k);
    }
  }

  lemma CreateKeepsInv(env: Env, o: Database, s: PlanSystem, step: PlanStep)
    requires Inv(o, s) && step.Create? && Enabled(s, step)
    ensures Inv(o, Next(env, s, step)) && Grows(env, s.d, Next(env, s, step).d)
  {
    var events := CreationEvents(step.plans, step.r);
    FreshPlansSave(s.d.table, step.plans, step.r.scope);
    if AppendAll(env, s.d.chain, events).Ok? {
      assert Announces(step.plans, events);
      CreateKeepsHistories(env, o, s.d, step.plans, step.r.scope, events);
    }
  }

  lemma ActKeepsInv(env: Env, o: Database, s: PlanSystem, step: PlanStep)
    requires Inv(o, s) && step.Act? && Enabled(s, step)
    ensures Inv(o, Next(env, s, step)) && Grows(env, s.d, Next(env, s, step).d)
  {
    if ActOn(env, s.d.chain, s.d.table, s.loaded[step.worker], step.op, step.r).Some? {
      ActKeepsHistories(env, o, s.d, s.loaded[step.worker], step.op, step.r);
    }
  }

  lemma ReadKeepsInv(env: Env, o: Database, s: PlanSystem, step: PlanStep)
    requires Inv(o, s) && step.Read? && Enabled(s, step)
    ensures Inv(o, Next(env, s, step)) && Grows(env, s.d, Next(env, s, step).d)
  {
  }

  lemma StepKeepsInv(env: Env, o: Database, s: PlanSystem, step: PlanStep)
    requires Inv(o, s) && Enabled(s, step)
    ensures Inv(o, Next(env, s, step)) && Grows(env, s.d, Next(env, s, step).d)
  {
    match step {
      case Create(_, _) => CreateKeepsInv(env, o, s, step);
      case Read(_, _) => ReadKeepsInv(env, o, s, step);
      case Act(_, _, _) => ActKeepsInv(env, o, s, step);
      case Unrelated(e) =>
        if TryAppend(env, s.d.chain, e).Ok? { UnrelatedKeepsHistories(env, o, s.d, e); }
    }
  }

  lemma {:induction false} RunKeepsInv(env: Env, o: Database, s: PlanSystem, steps: seq<PlanStep>)
    requires Inv(o, s)
    ensures Inv(o, Exec(env, s, steps)) && Grows(env, s.d, Exec(env, s, steps).d)
    decreases |steps|
  {
    if steps != [] {
      var t := if Enabled(s, steps[0]) then Next(env, s, steps[0]) else s;
      if Enabled(s, steps[0]) { StepKeepsInv(env, o, s, steps[0]); }
      RunKeepsInv(env, o, t, steps[1..]);
      GrowthChains(env, s.d, t.d, Exec(env, t, steps[1..]).d);
    }
  }

  lemma StartIsGood(s: PlanSystem)
    requires Start(s)
    ensures Inv(s.d, s)
  {
    forall id ensures Continues(s.d.chain.rows, s.d.table, s.d.chain.rows, s.d.table, id) {
      assert Added(PlanHistory(s.d.chain.rows, id), PlanHistory(s.d.chain.rows, id)) == [];
    }
  }

  /** Every success directly follows an approval of the same plan. */
  predicate ApprovedBeforeSuccess(h: seq<Entry>, first: string) {
    forall i :: 0 <= i < |h| && h[i].name == "plan_succeeded" ==>
      if i == 0 then first == "approved" else h[i - 1].name == "plan_approved"
  }

  lemma SuccessEntry(e: Entry)
    requires LegalEntry(e) && e.name == "plan_succeeded"
    ensures e.oldStatus == "approved"
  {
    assert e.newStatus == e.name[5..] == "succeeded";
  }

  lemma SuccessFollowsApproval(h: seq<Entry>, first: string, last: string)
    requires LegalPath(h, first, last)
    ensures ApprovedBeforeSuccess(h, first)
  {
    forall i | 0 <= i < |h| && h[i].name == "plan_succeeded"
      ensures if i == 0 then first == "approved" else h[i - 1].name == "plan_approved"
    {
      assert !Creates(h[i]);
      SuccessEntry(h[i]);
      if i > 0 { assert h[i - 1].newStatus == "approved"; }
    }
  }

  /** What this plan's history gained is a legal path in which every success directly follows an approval. */
  ghost predicate GainedPath(rows0: seq<AuditRow>, t0: PlanTable, rows: seq<AuditRow>, t: PlanTable, id: string) {
    && Continues(rows0, t0, rows, t, id)
    && ApprovedBeforeSuccess(Added(PlanHistory(rows0, id), PlanHistory(rows, id)), StoredStatus(t0, id))
  }

  lemma ContinuedIsGained(rows0: seq<AuditRow>, t0: PlanTable, rows: seq<AuditRow>, t: PlanTable, id: string)
    requires Continues(rows0, t0, rows, t, id)
    ensures GainedPath(rows0, t0, rows, t, id)
  {
    SuccessFollowsApproval(Added(PlanHistory(rows0, id), PlanHistory(rows, id)), StoredStatus(t0, id),
                           StoredStatus(t, id));
  }

  /** From any good database, under every interleaving of stale workers: the audit events each plan gains
      form one legal path from its former status ("none" for a new plan) to its stored status, and
      every success directly follows an approval of that plan; rows keep their order and owner, and
      every row the log gains recomputes. */
  lemma HistoriesArePaths(env: Env, s: PlanSystem, steps: seq<PlanStep>)
    requires Start(s)
    ensures var t := Exec(env, s, steps);
            && HeadOk(t.d.chain) && TableOk(t.d.table) && Grows(env, s.d, t.d)
            && forall id :: GainedPath(s.d.chain.rows, s.d.table, t.d.chain.rows, t.d.table, id)
  {
    StartIsGood(s);
    RunKeepsInv(env, s.d, s, steps);
    var t := Exec(env, s, steps);
    forall id ensures GainedPath(s.d.chain.rows, s.d.table, t.d.chain.rows, t.d.table, id) {
      assert Continues(s.d.chain.rows, s.d.table, t.d.chain.rows, t.d.table, id);
      ContinuedIsGained(s.d.chain.rows, s.d.table, t.d.chain.rows, t.d.table, id);
    }
  }

  /** One worker's read and action with nobody in between. */
  function Alone(env: Env, s: PlanSystem, worker: nat, id: string, op: Op, r: Request): PlanSystem
    requires Enabled(s, Read(worker, id))
  {
    Next(env, Next(env, s, Read(worker, id)), Act(worker, op, r))
  }

  lemma AloneIsOneAction(env: Env, s: PlanSystem, worker: nat, id: string, op: Op, r: Request)
    requires Enabled(s, Read(worker, id))
    ensures var released := s.(loaded := s.loaded - {worker});
            Alone(env, s, worker, id, op, r)
            == match ActOn(env, s.d.chain, s.d.table, s.d.table.rows[id].plan, op, r)
               case Some((chain, table)) => released.(d := Database(chain, table))
               case None => released
  {
    assert s.loaded[worker := s.d.table.rows[id].plan] - {worker} == s.loaded - {worker};
  }

  /** A swap against the plan just read fails only for another owner or in its audit append. */
  lemma CurrentSwapCommits(env: Env, d: Database, id: string, op: Op, r: Request)
    requires TableOk(d.table) && HeadOk(d.chain) && id in d.table.rows && Decide(d.table.rows[id].plan, op).Some?
    ensures var (row, after) := (d.table.rows[id], Decide(d.table.rows[id].plan, op).value);
            var e := TransitionEvent(row.plan, after, r);
            var done := ActOn(env, d.chain, d.table, row.plan, op, r);
            && (done.Some? <==> Recordable(env, e) && WrittenTenant(r) == row.tenant)
            && (done.Some? ==>
                  && TryAppend(env, d.chain, e) == Ok(done.value.0)
                  && done.value.1 == d.table.(rows := d.table.rows[id := row.(plan := after)]))
  {
    var (row, after) := (d.table.rows[id], Decide(d.table.rows[id].plan, op).value);
    var e := TransitionEvent(row.plan, after, r);
    AppendKeepsHead(env, d.chain, e);
    SingleSave(env, d.chain, d.table, after, WrittenTenant(r), e, Some(row.plan.status));
    assert after.proposal == row.plan.proposal;
  }

  /** In every reachable state, a worker that reads and acts with nobody in between commits exactly when
      the plan admits the operation, its event can be recorded, and the request writes the stored owner;
      the row then holds the decided plan and the log its event, and otherwise nothing changes. */
  lemma UncontendedActCommits(env: Env, s: PlanSystem, steps: seq<PlanStep>, worker: nat, id: string, op: Op,
                              r: Request)
    requires Start(s) && id in Exec(env, s, steps).d.table.rows
    ensures var t := Exec(env, s, steps);
            var (row, u) := (t.d.table.rows[id], Alone(env, t, worker, id, op, r));
            var decided := Decide(row.plan, op);
            if decided.Some? && Recordable(env, TransitionEvent(row.plan, decided.value, r))
                && (if r.scope.Some? then r.scope else r.cached) == row.tenant then
              && Admitted(row.plan, op) && DecidedAs(row.plan, op, decided.value)
              && u.d.table == t.d.table.(rows := t.d.table.rows[id := row.(plan := decided.value)])
              && TryAppend(env, t.d.chain, TransitionEvent(row.plan, decided.value, r)) == Ok(u.d.chain)
              && |u.d.chain.rows| == |t.d.chain.rows| + 1
              && Says(u.d.chain.rows[|t.d.chain.rows|], TransitionEvent(row.plan, decided.value, r))
            else
              && u == t.(loaded := t.loaded - {worker})
              && (Admitted(row.plan, op) ==> decided.Some?)
  {
    StartIsGood(s);
    RunKeepsInv(env, s.d, s, steps);
    var t := Exec(env, s, steps);
    AloneIsOneAction(env, t, worker, id, op, r);
    var plan := t.d.table.rows[id].plan;
    DecisionsAreRecorded(plan, op);
    if Decide(plan, op).Some? {
      CurrentSwapCommits(env, t.d, id, op, r);
      var e := TransitionEvent(plan, Decide(plan, op).value, r);
      if TryAppend(env, t.d.chain, e).Ok? { AppendReadsBack(env, t.d.chain, e); }
    }
  }

  /** Plan decisions are not terminal: evaluating brings any plan, a rejected one included, back to
      pending approval; and that is the only operation that leaves a decided status. */
  lemma OnlyEvaluationReopens(p: Plan, op: Op)
    requires p.status in {Succeeded, Cancelled, Rejected}
    ensures Decide(p, op).Some? <==> op.Evaluate?
    ensures op.Evaluate? ==> Decide(p, op).value.status.PendingApproval?
  {
  }
}
