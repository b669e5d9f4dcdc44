/** The stateful audit trails: the shared-SQL one and the in-memory one. */
module AuditTrails {
  import opened Outcomes
  import opened Text
  import opened JsonValues
  import opened AuditChain
  import opened AuditVerifiers

  /** PersistentAuditTrail on shared SQL. Each method is one transaction against the two tables. */
  class PersistentAuditTrail {
    const env: Env
    var rows: seq<AuditRow>
    var lastSequence: int
    var lastHash: string

    /** Migrations seed the head row from the rows already present. */
    constructor (env: Env, rows: seq<AuditRow>)
      ensures this.env == env
      ensures Contents() == Chain(rows, TailSequence(rows), TailHash(rows))
      ensures Contiguous(rows) && (forall i :: 0 <= i < |rows| ==> IsHex64(rows[i].hash)) ==> HeadOk(Contents())
    {
      this.env, this.rows := env, rows;
      lastSequence, lastHash := TailSequence(rows), TailHash(rows);
    }

    function Contents(): Chain
      reads this
    {
      Chain(rows, lastSequence, lastHash)
    }

    /** Reads the head and the tail, refuses if they differ, inserts, then moves the head. */
    method AppendWithLockedHead(e: AuditEvent) returns (r: Result<(), AuditError>)
      requires RecordValid(e)
      modifies this
      ensures r.Ok? <==> TryAppend(env, old(Contents()), e).Ok?
      ensures r.Ok? ==> Contents() == TryAppend(env, old(Contents()), e).value
      ensures r.Err? ==> Contents() == old(Contents()) && r == Err(TryAppend(env, old(Contents()), e).error)
      ensures r.Ok? ==> |rows| == |old(rows)| + 1 && old(rows) <= rows && Says(rows[|old(rows)|], e)
    {
      var json := EventJson(e);
      if TryAppend(env, Contents(), e).Ok? { AppendReadsBack(env, Contents(), e); }
      if env.canon(json).None? { return Err(NotCanonical); }
      var expectedSequence, expectedHash := TailSequence(rows), TailHash(rows);
      if lastSequence != expectedSequence || lastHash != expectedHash { return Err(HeadInconsistent); }
      var hash := LinkHash(env, expectedHash, json);
      if hash.None? { return Err(NotCanonical); }
      rows := rows + [AuditRow(expectedSequence + 1, Decoded(json), hash.value)];
      lastSequence, lastHash := expectedSequence + 1, hash.value;
      r := Ok(());
    }

    /** record, and record_with_connection inside a transaction that commits with it. */
    method Record(e: AuditEvent) returns (r: Result<(), AuditError>)
      modifies this
      ensures r.Ok? <==> TryAppend(env, old(Contents()), e).Ok?
      ensures Contents() == Apply(env, old(Contents()), ChainStep.Record(e))
      ensures r.Err? ==> r == Err(TryAppend(env, old(Contents()), e).error)
      ensures r.Ok? ==> |rows| == |old(rows)| + 1 && old(rows) <= rows && Says(rows[|old(rows)|], e)
    {
      if !RecordValid(e) { return Err(InvalidEvent); }
      r := AppendWithLockedHead(e);
    }

    /** Several appends inside one caller-owned transaction, rolled back as a whole. */
    method RecordInCallerTransaction(events: seq<AuditEvent>, commits: bool) returns (r: Result<(), AuditError>)
      modifies this
      ensures r.Ok? <==> AppendAll(env, old(Contents()), events).Ok?
      ensures Contents() == Apply(env, old(Contents()), InCallerTransaction(events, commits))
    {
      var saved := (rows, lastSequence, lastHash);
      r := Ok(());
      var i := 0;
      while i < |events| && r.Ok?
        invariant 0 <= i <= |events|
        invariant r.Ok? ==> AppendAll(env, old(Contents()), events) == AppendAll(env, Contents(), events[i..])
        invariant r.Err? ==> AppendAll(env, old(Contents()), events).Err?
      {
        r := Record(events[i]);
        i := i + 1;
      }
      if r.Err? || !commits {
        rows, lastSequence, lastHash := saved.0, saved.1, saved.2;
      }
    }

    method ClearAll()
      modifies this
      ensures Contents() == Apply(env, old(Contents()), ChainStep.Clear)
    {
      rows := [];
      lastSequence, lastHash := 0, "";
    }
  }

  /** Events and their hashes as rows of a chain; a hash without an event has no row. */
  function Rows(events: seq<AuditEvent>, hashes: seq<string>): (rows: seq<AuditRow>)
    ensures |rows| == if |events| < |hashes| then |events| else |hashes|
  {
    seq(if |events| < |hashes| then |events| else |hashes|,
        i requires 0 <= i < |events| && i < |hashes| => AuditRow(i + 1, Decoded(EventJson(events[i])), hashes[i]))
  }

  lemma RowsSnoc(events: seq<AuditEvent>, hashes: seq<string>, e: AuditEvent, hash: string)
    requires |events| == |hashes|
    ensures Rows(events + [e], hashes + [hash])
            == Rows(events, hashes) + [AuditRow(|events| + 1, Decoded(EventJson(e)), hash)]
  {
  }

  /** The rows with the head that belongs to them. */
  function AsChain(rows: seq<AuditRow>): Chain {
    Chain(rows, |rows|, TailHash(rows))
  }

  /** Every row carries every field and recomputes, and sequences are 1..n. */
  ghost predicate Recomputes(env: Env, rows: seq<AuditRow>) {
    HeadOk(AsChain(rows)) && GrownFrom(env, [], rows)
  }

  /** One more event under its link hash extends an intact trail by one intact row. */
  lemma RowsExtend(env: Env, rows: seq<AuditRow>, json: Json)
    requires Recomputes(env, rows) && CarriesEveryField(Decoded(json))
    ensures var hash := LinkHash(env, TailHash(rows), json);
            && (hash.Some? <==> env.canon(json).Some?)
            && (hash.Some? ==> Recomputes(env, rows + [AuditRow(|rows| + 1, Decoded(json), hash.value)]))
  {
    HeadIsTail(AsChain(rows));
    var hash := LinkHash(env, TailHash(rows), json);
    if hash.Some? {
      ExtendKeepsHead(env, AsChain(rows), json, hash.value);
      GrownChains(env, [], rows, rows + [AuditRow(|rows| + 1, Decoded(json), hash.value)]);
    }
  }

  /** AuditTrail: events and their hashes in two parallel lists. */
  class AuditTrail {
    const env: Env
    var events: seq<AuditEvent>
    var hashes: seq<string>

    constructor (env: Env)
      ensures this.env == env && events == [] && hashes == []
    {
      this.env := env;
      events, hashes := [], [];
    }

    function AsRows(): (rows: seq<AuditRow>)
      reads this
    {
      Rows(events, hashes)
    }

    ghost predicate Intact()
      reads this
    {
      |events| == |hashes| && Recomputes(env, AsRows())
    }

    method Record(e: AuditEvent) returns (r: Result<(), AuditError>)
      requires Intact()
      modifies this
      ensures Intact()
      ensures r.Ok? <==> Recordable(env, e)
      ensures events == if r.Ok? then old(events) + [e] else old(events)
      ensures r.Ok? ==> old(hashes) <= hashes
      ensures r.Err? ==> hashes == old(hashes)
    {
      if !RecordValid(e) { return Err(InvalidEvent); }
      var previous := if hashes == [] then "" else hashes[|hashes| - 1];
      var json := EventJson(e);
      EventJsonIsComplete(e);
      RowsExtend(env, AsRows(), json);
      var hash := LinkHash(env, previous, json);
      if hash.None? { return Err(NotCanonical); }
      RowsSnoc(events, hashes, e, hash.value);
      events := events + [e];
      hashes := hashes + [hash.value];
      r := Ok(());
    }

    /** _verify_integrity_unlocked: lists of different lengths are invalid at the shorter one's end;
        otherwise the least broken link is reported. */
    method VerifyIntegrity() returns (r: IntegrityResult)
      ensures r.count == |events|
      ensures r.valid <==> |events| == |hashes| && Linked(env, AsRows())
      ensures r.valid <==> r.firstInvalid.None?
      ensures |events| != |hashes| ==> r.firstInvalid == Some(if |events| < |hashes| then |events| else |hashes|)
      ensures |events| == |hashes| && r.firstInvalid.Some? ==>
                var bad := r.firstInvalid.value;
                && bad < |events| && !LinkOk(env, AsRows(), bad)
                && forall i :: 0 <= i < bad ==> LinkOk(env, AsRows(), i)
    {
      if |events| != |hashes| {
        return IntegrityResult(false, |events|, Some(if |events| < |hashes| then |events| else |hashes|));
      }
      ghost var rows := AsRows();
      var previous := "";
      for index := 0 to |events|
        invariant previous == PreviousHash(rows, index)
        invariant forall i :: 0 <= i < index ==> LinkOk(env, rows, i)
      {
        assert rows[index] == AuditRow(index + 1, Decoded(EventJson(events[index])), hashes[index]);
        if !IsHex64(hashes[index]) || LinkHash(env, previous, EventJson(events[index])) != Some(hashes[index]) {
          assert !LinkOk(env, rows, index);
          return IntegrityResult(false, |events|, Some(index));
        }
        previous := hashes[index];
      }
      r := IntegrityResult(true, |events|, None);
    }
  }
}
