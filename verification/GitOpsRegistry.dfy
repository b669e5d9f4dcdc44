/** The legacy GitOps registry: a live dictionary kept in step with one SQLite table. */
module GitOpsRegistry {
  import opened Outcomes
  import opened Text
  import opened Orders
  import opened GitOps

  datatype TableRow = TableRow(payload: string, order: int)

  function OrdersOf(table: map<string, TableRow>): map<string, int> {
    map id | id in table :: table[id].order
  }

  /** COALESCE(MAX(created_order) + 1, 1) over the rows of a table. */
  ghost predicate IsNextOrder(table: map<string, TableRow>, next: int) {
    && next >= 1
    && (forall id :: id in table ==> table[id].order < next)
    && (next > 1 ==> exists id :: id in table && table[id].order == next - 1)
  }

  /** A new row under the next order. */
  ghost predicate Inserted(table: map<string, TableRow>, id: string, payload: string, after: map<string, TableRow>) {
    exists next :: IsNextOrder(table, next) && after == table[id := TableRow(payload, next)]
  }

  /** Startup: decode every payload ORDER BY created_order; None when one is corrupt. */
  function Rebuild(codec: PayloadCodec, table: map<string, TableRow>, ids: seq<string>): Option<seq<ChangeSet>>
    requires forall id :: id in ids ==> id in table
  {
    if ids == [] then Some([])
    else
      match (codec.decode(table[ids[0]].payload, None), Rebuild(codec, table, ids[1..]))
      case (Some(cs), Some(rest)) => Some([cs] + rest)
      case _ => None
  }

  /** The registry's values in dictionary order. */
  function Listed(changes: map<string, ChangeSet>, ids: seq<string>): (all: seq<ChangeSet>)
    requires forall id :: id in ids ==> id in changes
    ensures |all| == |ids|
  {
    seq(|ids|, i requires 0 <= i < |ids| => changes[ids[i]])
  }

  /** The payload text decodes to this change set, under this id. */
  ghost predicate Stores(codec: PayloadCodec, payload: string, cs: ChangeSet, id: string) {
    cs.changeId == id && codec.decode(payload, None) == Some(cs)
  }

  /** Registry and table list the same ids in creation order, and each payload stores its live change set. */
  ghost predicate InStep(codec: PayloadCodec, changes: map<string, ChangeSet>, order: seq<string>,
                         table: map<string, TableRow>)
  {
    && (forall id :: id in changes <==> id in table)
    && InOrder(OrdersOf(table), order)
    && (forall id :: id in table ==> table[id].order >= 1)
    && (forall id :: id in changes ==> Stores(codec, table[id].payload, changes[id], id))
  }

  datatype RegistryError = BlankId | AlreadyRegistered | NotFound | EngineRefused | WriteFailed

  lemma AppendedInOrder(orders: map<string, int>, ids: seq<string>, id: string, next: int)
    requires InOrder(orders, ids) && id !in orders && forall k :: k in orders ==> orders[k] < next
    ensures InOrder(orders[id := next], ids + [id])
  {
    var (more, all) := (orders[id := next], ids + [id]);
    assert forall i :: 0 <= i < |ids| ==> all[i] == ids[i] && ids[i] in ids && more[ids[i]] == orders[ids[i]];
  }

  lemma AddKeepsStep(codec: PayloadCodec, changes: map<string, ChangeSet>, order: seq<string>,
                     table: map<string, TableRow>, id: string, cs: ChangeSet, payload: string,
                     after: map<string, TableRow>)
    requires InStep(codec, changes, order, table) && id !in changes && Stores(codec, payload, cs, id)
    requires Inserted(table, id, payload, after)
    ensures InStep(codec, changes[id := cs], order + [id], after)
  {
    var next :| IsNextOrder(table, next) && after == table[id := TableRow(payload, next)];
    AppendedInOrder(OrdersOf(table), order, id, next);
    assert OrdersOf(after) == OrdersOf(table)[id := next];
  }

  lemma UpdateKeepsStep(codec: PayloadCodec, changes: map<string, ChangeSet>, order: seq<string>,
                        table: map<string, TableRow>, id: string, next: ChangeSet, payload: string)
    requires InStep(codec, changes, order, table) && id in changes && Stores(codec, payload, next, id)
    ensures InStep(codec, changes[id := next], order, table[id := TableRow(payload, table[id].order)])
  {
    assert OrdersOf(table[id := TableRow(payload, table[id].order)]) == OrdersOf(table);
  }

  lemma EncodedIsStored(codec: PayloadCodec, cs: ChangeSet)
    requires Faithful(codec) && Constructed(cs)
    ensures Stores(codec, codec.encode(cs), cs, cs.changeId)
  {
    assert TenantAgrees(cs.metadata, None);
  }

  lemma RegisterKeepsStep(codec: PayloadCodec, changes: map<string, ChangeSet>, order: seq<string>,
                          table: map<string, TableRow>, cs: ChangeSet, after: map<string, TableRow>)
    requires Faithful(codec) && InStep(codec, changes, order, table) && cs.changeId !in changes
    requires Constructed(cs) && Inserted(table, cs.changeId, codec.encode(cs), after)
    ensures InStep(codec, changes[cs.changeId := cs], order + [cs.changeId], after)
  {
    EncodedIsStored(codec, cs);
    AddKeepsStep(codec, changes, order, table, cs.changeId, cs, codec.encode(cs), after);
  }

  lemma PerformedIsStored(codec: PayloadCodec, payload: string, cs: ChangeSet, op: Op, id: string)
    requires Faithful(codec) && Stores(codec, payload, cs, id) && GitOps.Perform(cs, op).Some?
    ensures var next := GitOps.Perform(cs, op).value; Stores(codec, codec.encode(next), next, id)
  {
    PerformKeeps(cs, op);
    EncodedIsStored(codec, GitOps.Perform(cs, op).value);
  }

  /** The engine's in-place work on the live change set. */
  method Mutated(cs: ChangeSet, op: Op) returns (next: Option<ChangeSet>)
    ensures next == GitOps.Perform(cs, op)
    ensures next.Some? <==> Admitted(cs, op)
    ensures next.Some? ==> DoneTo(cs, op, next.value)
  {
    OperationsDoTheirWork(cs, op);
    var live := new GitOpsChangeSet(cs);
    var ok := true;
    match op {
      case Approve(who) => ok := live.ApproveSet(who);
      case Reject(who, reason) => ok := live.RejectSet(who, reason);
      case Apply(dryRun) => var result := live.ApplySet(dryRun);
      case Verify(observed) =>
        var verified := live.VerifySet(observed);
        ok := verified.Some?;
    }
    next := if ok then Some(live.View()) else None;
  }

  class GitOpsChangeSetRegistry {
    const codec: PayloadCodec
    var changes: map<string, ChangeSet>
    var order: seq<string>
    var table: map<string, TableRow>

    /** A restart on the same table would rebuild exactly the live registry. */
    ghost predicate Agrees()
      reads this
    {
      InStep(codec, changes, order, table)
    }

    constructor (codec: PayloadCodec)
      ensures Agrees() && this.codec == codec && changes == map[] && table == map[]
    {
      this.codec := codec;
      changes, order, table := map[], [], map[];
    }

    /** Startup on a table whose payloads decode under their own ids, whatever their text. */
    constructor Load(codec: PayloadCodec, table: map<string, TableRow>, ids: seq<string>)
      requires InOrder(OrdersOf(table), ids) && forall id :: id in table ==> table[id].order >= 1
      requires forall id :: id in table ==>
                 var cs := codec.decode(table[id].payload, None); cs.Some? && cs.value.changeId == id
      ensures Agrees() && this.codec == codec && this.table == table && order == ids
    {
      this.codec, this.table, order := codec, table, ids;
      changes := map id | id in table :: codec.decode(table[id].payload, None).value;
    }

    method NextOrder() returns (next: int)
      requires InOrder(OrdersOf(table), order) && forall id :: id in table ==> table[id].order >= 1
      ensures IsNextOrder(table, next)
    {
      if order == [] {
        assert forall id :: id in table ==> id in order;
        return 1;
      }
      var last := order[|order| - 1];
      assert last in order;
      next := table[last].order + 1;
      forall id | id in table ensures table[id].order < next {
        assert id in order;
        var i :| 0 <= i < |order| && order[i] == id;
      }
      assert table[last].order == next - 1;
    }

    /** _persist: an upsert that keeps the order of an existing row; it fails as a whole or not at all. */
    method Persist(id: string, payload: string, writes: bool) returns (ok: bool)
      requires InOrder(OrdersOf(table), order) && forall k :: k in table ==> table[k].order >= 1
      modifies this`table
      ensures ok == writes
      ensures !ok ==> table == old(table)
      ensures ok && id in old(table) ==> table == old(table)[id := TableRow(payload, old(table)[id].order)]
      ensures ok && id !in old(table) ==> Inserted(old(table), id, payload, table)
    {
      if !writes { return false; }
      if id in table {
        table := table[id := TableRow(payload, table[id].order)];
      } else {
        var next := NextOrder();
        table := table[id := TableRow(payload, next)];
      }
      ok := true;
    }

    /** register: the live entry is added only after its durable write. */
    method Register(cs: ChangeSet, writes: bool) returns (r: Result<(), RegistryError>)
      requires Faithful(codec) && Agrees() && Constructed(cs)
      modifies this
      ensures Agrees()
      ensures r.Ok? <==> cs.changeId !in old(changes) && writes
      ensures r.Ok? ==> changes == old(changes)[cs.changeId := cs] && order == old(order) + [cs.changeId]
      ensures r.Err? ==> changes == old(changes) && order == old(order) && table == old(table)
      ensures r == Err(AlreadyRegistered) <==> cs.changeId in old(changes)
      ensures r == Err(WriteFailed) <==> cs.changeId !in old(changes) && !writes
      ensures r.Ok? ==> cs.changeId in table && table[cs.changeId].payload == codec.encode(cs)
    {
      assert InStep(codec, changes, order, table);
      if Blank(cs.changeId) { return Err(BlankId); }
      if cs.changeId in changes { return Err(AlreadyRegistered); }
      var ok := Persist(cs.changeId, codec.encode(cs), writes);
      if !ok { return Err(WriteFailed); }
      changes := changes[cs.changeId := cs];
      order := order + [cs.changeId];
      RegisterKeepsStep(codec, old(changes), old(order), old(table), cs, table);
      assert InStep(codec, changes, order, table);
      r := Ok(());
    }

    /** approve / reject / apply / verify: mutate the live change set, write it, and put the live one
        back when the write fails. */
    method Perform(id: string, op: Op, writes: bool) returns (r: Result<(), RegistryError>)
      requires Faithful(codec) && Agrees()
      modifies this
      ensures Agrees() && order == old(order)
      ensures r.Ok? <==> id in old(changes) && GitOps.Perform(old(changes)[id], op).Some? && writes
      ensures r.Ok? ==> changes == old(changes)[id := GitOps.Perform(old(changes)[id], op).value]
      ensures r.Err? ==> changes == old(changes) && table == old(table)
      ensures r == Err(NotFound) <==> id !in old(changes)
      ensures r == Err(EngineRefused) <==> id in old(changes) && !Admitted(old(changes)[id], op)
      ensures r == Err(WriteFailed) <==> id in old(changes) && Admitted(old(changes)[id], op) && !writes
      ensures r.Ok? ==>
                && DoneTo(old(changes)[id], op, changes[id])
                && id in table && table[id].payload == codec.encode(changes[id])
    {
      if id !in changes { return Err(NotFound); }
      OperationsDoTheirWork(changes[id], op);
      assert Stores(codec, table[id].payload, changes[id], id);
      var next := Mutated(changes[id], op);
      if next.None? { return Err(EngineRefused); }
      PerformedIsStored(codec, table[id].payload, changes[id], op, id);
      UpdateKeepsStep(codec, changes, order, table, id, next.value, codec.encode(next.value));
      var ok := WriteBack(id, next.value, codec.encode(next.value), writes);
      r := if ok then Ok(()) else Err(WriteFailed);
    }

    /** _persist_change: the live entry is already changed when the write is tried. */
    method WriteBack(id: string, next: ChangeSet, payload: string, writes: bool) returns (ok: bool)
      requires InOrder(OrdersOf(table), order) && forall k :: k in table ==> table[k].order >= 1
      requires id in changes && id in table
      modifies this
      ensures ok == writes && order == old(order)
      ensures changes == if ok then old(changes)[id := next] else old(changes)
      ensures table == if ok then old(table)[id := TableRow(payload, old(table)[id].order)] else old(table)
    {
      var previous := changes[id];
      changes := changes[id := next];
      ok := Persist(id, payload, writes);
      if !ok {
        changes := changes[id := previous];
        assert changes == old(changes);
      }
    }

    method ClearAll()
      modifies this
      ensures Agrees() && changes == map[] && table == map[]
    {
      table := map[];
      changes, order := map[], [];
    }
  }

  /** What being in step means: any ORDER BY created_order read of the table decodes, entry by entry and in
      the same order, to the live registry. */
  lemma {:induction false} RebuildIsRegistry(codec: PayloadCodec, changes: map<string, ChangeSet>,
                                             table: map<string, TableRow>, ids: seq<string>)
    requires forall id :: id in ids ==>
               id in changes && id in table && codec.decode(table[id].payload, None) == Some(changes[id])
    ensures Rebuild(codec, table, ids) == Some(Listed(changes, ids))
  {
    if ids != [] {
      assert ids[0] in ids;
      RebuildIsRegistry(codec, changes, table, ids[1..]);
      assert Listed(changes, ids) == [changes[ids[0]]] + Listed(changes, ids[1..]);
    }
  }

  /** After every operation, successful or failing in its durable write, a restart rebuilds the live
      registry: the same change sets in the same order. */
  lemma RestartRebuildsRegistry(registry: GitOpsChangeSetRegistry, loaded: seq<string>)
    requires registry.Agrees() && InOrder(OrdersOf(registry.table), loaded)
    ensures loaded == registry.order
    ensures Rebuild(registry.codec, registry.table, loaded) == Some(Listed(registry.changes, registry.order))
  {
    InOrderIsUnique(OrdersOf(registry.table), loaded, registry.order);
    forall id | id in registry.order
      ensures id in registry.changes && id in registry.table
      ensures registry.codec.decode(registry.table[id].payload, None) == Some(registry.changes[id])
    {
      assert Stores(registry.codec, registry.table[id].payload, registry.changes[id], id);
    }
    RebuildIsRegistry(registry.codec, registry.changes, registry.table, registry.order);
  }
}
