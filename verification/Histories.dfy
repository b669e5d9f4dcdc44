/** What the audit log says about one subject: the entries that concern it, in chain order. */
module Histories {
  import opened JsonValues
  import opened AuditChain

  datatype Entry = Entry(name: string, actionId: string, resourceId: string, oldStatus: string, newStatus: string)

  function TextField(row: AuditRow, key: string): string {
    if row.json.Decoded? && row.json.value.Obj? && key in row.json.value.fields && row.json.value.fields[key].Str?
    then row.json.value.fields[key].s else ""
  }

  function EntryOf(row: AuditRow): Entry {
    Entry(TextField(row, "event"), TextField(row, "action_id"), TextField(row, "resource_id"),
          TextField(row, "old_status"), TextField(row, "new_status"))
  }

  function EventEntry(e: AuditEvent): Entry {
    Entry(e.event, e.actionId, e.resourceId, e.oldStatus, e.newStatus)
  }

  lemma LoggedEntry(row: AuditRow, e: AuditEvent)
    requires row.json == Decoded(EventJson(e))
    ensures EntryOf(row) == EventEntry(e)
  {
  }

  function History(rows: seq<AuditRow>, mine: Entry -> bool): seq<Entry> {
    if rows == [] then []
    else
      var entry := EntryOf(rows[|rows| - 1]);
      History(rows[..|rows| - 1], mine) + if mine(entry) then [entry] else []
  }

  /** Appending an event to a good log extends exactly the histories it belongs to. */
  lemma AppendExtendsHistory(env: Env, c: Chain, e: AuditEvent, mine: Entry -> bool)
    requires HeadOk(c) && TryAppend(env, c, e).Ok?
    ensures HeadOk(TryAppend(env, c, e).value)
    ensures History(TryAppend(env, c, e).value.rows, mine)
            == History(c.rows, mine) + if mine(EventEntry(e)) then [EventEntry(e)] else []
  {
    AppendKeepsHead(env, c, e);
    var rows := TryAppend(env, c, e).value.rows;
    assert rows[..|rows| - 1] == c.rows;
    LoggedEntry(rows[|rows| - 1], e);
  }

  /** The entries are linked and lead from one status to another. */
  predicate PathBetween(h: seq<Entry>, first: string, last: string) {
    && (forall i :: 0 < i < |h| ==> h[i].oldStatus == h[i - 1].newStatus)
    && if h == [] then first == last else h[0].oldStatus == first && h[|h| - 1].newStatus == last
  }
}
