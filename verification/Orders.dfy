/** Creation orders: the allocator's invariant, and what ORDER BY created_order can return. */
module Orders {
  /** Orders are distinct and lie in 1..last. */
  ghost predicate OrdersOk(orders: map<string, int>, last: int) {
    && last >= 0
    && (forall id :: id in orders ==> 1 <= orders[id] <= last)
    && (forall a, b :: a in orders && b in orders && a != b ==> orders[a] != orders[b])
  }

  /** The order after the last one keeps the allocator's invariant. */
  lemma NextOrderIsFree(orders: map<string, int>, last: int, id: string)
    requires OrdersOk(orders, last) && id !in orders
    ensures OrdersOk(orders[id := last + 1], last + 1)
  {
  }

  ghost predicate Ascending(orders: map<string, int>, ids: seq<string>) {
    && (forall id :: id in ids ==> id in orders)
    && (forall i, j :: 0 <= i < j < |ids| ==> orders[ids[i]] < orders[ids[j]])
  }

  /** `ids` lists every row once, by ascending order: a result of SELECT ... ORDER BY created_order. */
  ghost predicate InOrder(orders: map<string, int>, ids: seq<string>) {
    (forall id :: id in ids <==> id in orders) && Ascending(orders, ids)
  }

  /** Strictly ascending lists of the same rows are the same list. */
  lemma {:induction false} AscendingIsUnique(orders: map<string, int>, a: seq<string>, b: seq<string>)
    requires Ascending(orders, a) && Ascending(orders, b)
    requires forall id :: id in a <==> id in b
    ensures a == b
    decreases |a|
  {
    assert (|a| > 0 ==> a[0] in b) && (|b| > 0 ==> b[0] in a);
    if a != [] {
      assert a[0] in b && b != [];
      var i :| 0 <= i < |b| && b[i] == a[0];
      assert b[0] in a;
      var j :| 0 <= j < |a| && a[j] == b[0];
      assert i == 0 && j == 0;
      forall id ensures id in a[1..] <==> id in b[1..] {
        if id in a[1..] {
          assert id in b && id != b[0];
        }
        if id in b[1..] {
          assert id in a && id != a[0];
        }
      }
      AscendingIsUnique(orders, a[1..], b[1..]);
    }
  }

  /** ORDER BY is deterministic on such a table. */
  lemma InOrderIsUnique(orders: map<string, int>, a: seq<string>, b: seq<string>)
    requires InOrder(orders, a) && InOrder(orders, b)
    ensures a == b
  {
    AscendingIsUnique(orders, a, b);
  }

  function Filter(ids: seq<string>, keep: set<string>): seq<string> {
    if ids == [] then [] else (if ids[0] in keep then [ids[0]] else []) + Filter(ids[1..], keep)
  }

  lemma ConsAscends(orders: map<string, int>, id: string, ids: seq<string>)
    requires id in orders && Ascending(orders, ids) && forall i :: 0 <= i < |ids| ==> orders[id] < orders[ids[i]]
    ensures Ascending(orders, [id] + ids)
    ensures forall k :: k in [id] + ids <==> k == id || k in ids
  {
  }

  lemma ConsMembers(ids: seq<string>)
    requires ids != []
    ensures forall id :: id in ids <==> id == ids[0] || id in ids[1..]
  {
    assert ids == [ids[0]] + ids[1..];
  }

  lemma {:induction false} FilterAscends(orders: map<string, int>, ids: seq<string>, keep: set<string>)
    requires Ascending(orders, ids)
    ensures forall id :: id in Filter(ids, keep) <==> id in ids && id in keep
    ensures Ascending(orders, Filter(ids, keep))
  {
    if ids != [] {
      var rest := ids[1..];
      FilterAscends(orders, rest, keep);
      var f := Filter(rest, keep);
      forall i | 0 <= i < |f| ensures orders[ids[0]] < orders[f[i]] {
        assert f[i] in rest;
      }
      ConsMembers(ids);
      if ids[0] in keep { ConsAscends(orders, ids[0], f); }
    }
  }

  /** A load restricted to some rows is the order-preserving filter of the full load. */
  lemma ScopedLoadIsFilter(orders: map<string, int>, some: map<string, int>, keep: set<string>,
                           full: seq<string>, scoped: seq<string>)
    requires forall id :: id in some <==> id in orders && id in keep
    requires forall id :: id in some ==> some[id] == orders[id]
    requires InOrder(orders, full) && InOrder(some, scoped)
    ensures scoped == Filter(full, keep)
  {
    FilterAscends(orders, full, keep);
    assert forall i :: 0 <= i < |scoped| ==> scoped[i] in some && some[scoped[i]] == orders[scoped[i]];
    AscendingIsUnique(orders, scoped, Filter(full, keep));
  }
}
