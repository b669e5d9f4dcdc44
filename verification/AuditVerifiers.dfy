/** The four ways the chain is checked, the export, and why they agree. */
module AuditVerifiers {
  import opened Outcomes
  import opened Text
  import opened JsonValues
  import opened AuditChain

  // ---- The store's own diagnostics -------------------------------------------------

  datatype IntegrityResult = IntegrityResult(valid: bool, count: nat, firstInvalid: Option<nat>)

  method Diagnose(env: Env, clock: nat -> string, rows: seq<AuditRow>) returns (r: IntegrityResult)
    ensures r.count == |rows|
    ensures r.valid <==> DiagnosticsPass(env, clock, rows)
    ensures r.valid <==> r.firstInvalid.None?
    ensures r.firstInvalid.Some? ==>
              var bad := r.firstInvalid.value;
              && bad < |rows| && !DiagnosticOk(env, clock, rows, bad)
              && forall i :: 0 <= i < bad ==> DiagnosticOk(env, clock, rows, i)
  {
    var previous := "";
    for index := 0 to |rows|
      invariant previous == PreviousHash(rows, index)
      invariant forall i :: 0 <= i < index ==> DiagnosticOk(env, clock, rows, i)
    {
      var row := rows[index];
      var event := if row.json.Decoded? then EventFields(row.json.value, clock(index)) else None;
      if event.None? {
        assert !DiagnosticOk(env, clock, rows, index);
        return IntegrityResult(false, |rows|, Some(index));
      }
      var expected := LinkHash(env, previous, event.value);
      if expected.None? || |row.hash| != 64 || expected.value != row.hash {
        assert !DiagnosticOk(env, clock, rows, index);
        return IntegrityResult(false, |rows|, Some(index));
      }
      previous := row.hash;
    }
    r := IntegrityResult(true, |rows|, None);
  }

  // ---- The reconciler's independent check -------------------------------------------

  method RowLinks(env: Env, row: AuditRow, previous: string) returns (ok: bool)
    ensures ok <==>
              row.json.Decoded? && row.json.value.Obj? && LinkHash(env, previous, row.json.value) == Some(row.hash)
  {
    if !IsHex64(row.hash) { return false; }
    if !row.json.Decoded? || !row.json.value.Obj? { return false; }
    ok := LinkHash(env, previous, row.json.value) == Some(row.hash);
  }

  method AuditChainValid(env: Env, rows: seq<AuditRow>) returns (valid: bool)
    ensures valid <==> Contiguous(rows) && Linked(env, rows)
  {
    var previous := "";
    for index := 0 to |rows|
      invariant previous == PreviousHash(rows, index)
      invariant forall i :: 0 <= i < index ==> rows[i].sequence == i + 1
      invariant forall i :: 0 <= i < index ==> LinkOk(env, rows, i)
    {
      if rows[index].sequence != index + 1 { return false; }
      var ok := RowLinks(env, rows[index], previous);
      assert ok <==> LinkOk(env, rows, index);
      if !ok { return false; }
      previous := rows[index].hash;
    }
    valid := true;
  }

  // ---- Agreement --------------------------------------------------------------------

  /** On rows whose JSON carries every event field the diagnostics accept exactly the chains whose
      links all recompute, whatever the clock; adding contiguity gives the importer's check. */
  lemma VerifiersAgree(env: Env, clock: nat -> string, rows: seq<AuditRow>)
    requires Complete(rows)
    ensures forall i :: 0 <= i < |rows| ==> (DiagnosticOk(env, clock, rows, i) <==> LinkOk(env, rows, i))
    ensures DiagnosticsPass(env, clock, rows) <==> Linked(env, rows)
    ensures Importable(env, clock, rows) <==> Linked(env, rows) && Contiguous(rows)
  {
    forall i | 0 <= i < |rows|
      ensures DiagnosticOk(env, clock, rows, i) <==> LinkOk(env, rows, i)
    {
      assert CarriesEveryField(rows[i].json);
      CompleteEventIsItself(rows[i].json, clock(i));
    }
  }

  /** Without that condition they part ways: a row with a key AuditEvent does not know, or without
      one it requires, is rejected by the diagnostics even when its link recomputes. */
  lemma UnknownOrMissingKeysDivide(env: Env, clock: nat -> string, rows: seq<AuditRow>, i: nat)
    requires i < |rows| && LinkOk(env, rows, i)
    requires !(REQUIRED_FIELDS <= rows[i].json.value.fields.Keys <= ALL_FIELDS)
    ensures !DiagnosticOk(env, clock, rows, i)
  {
  }

  /** Two different byte strings with one digest. */
  predicate Collide(env: Env, a: Bytes, b: Bytes) {
    a != b && env.sha(a) == env.sha(b)
  }

  /** Two different JSON values with one canonical form. */
  predicate SameForm(env: Env, a: Json, b: Json) {
    a != b && env.canon(a).Some? && env.canon(a) == env.canon(b)
  }

  /** The stored event of row i and the one rebuilt from it cannot be told apart: they share a
      canonical form, or their hash inputs collide. */
  predicate Indistinct(env: Env, clock: nat -> string, rows: seq<AuditRow>, i: nat)
    requires i < |rows| && IsAscii(PreviousHash(rows, i))
  {
    && rows[i].json.Decoded? && ReadEvent(clock, rows, i).Some?
    && var (stored, filled) := (env.canon(rows[i].json.value), env.canon(ReadEvent(clock, rows, i).value));
    && stored.Some? && filled.Some?
    && (|| SameForm(env, rows[i].json.value, ReadEvent(clock, rows, i).value)
        || Collide(env, LinkInput(PreviousHash(rows, i), stored.value), LinkInput(PreviousHash(rows, i), filled.value)))
  }

  /** A row that leaves out an optional key passes both checks only if the event with the default
      filled in has the same canonical form as the one without, or there is a collision: for any
      canonical form and digest that tell such values apart, one of the two checks rejects the row. */
  lemma MissingOptionalKeysDivide(env: Env, clock: nat -> string, rows: seq<AuditRow>, i: nat)
    requires i < |rows| && IsAscii(PreviousHash(rows, i))
    requires LinkOk(env, rows, i) && DiagnosticOk(env, clock, rows, i) && !CarriesEveryField(rows[i].json)
    ensures Indistinct(env, clock, rows, i)
  {
    var (stored, filled, previous) := (rows[i].json.value, ReadEvent(clock, rows, i).value, PreviousHash(rows, i));
    assert filled.fields.Keys == ALL_FIELDS != stored.fields.Keys;
    var (x, y) := (env.canon(stored).value, env.canon(filled).value);
    if LinkInput(previous, x) == LinkInput(previous, y) {
      assert x == LinkInput(previous, x)[|previous| + 1..] == LinkInput(previous, y)[|previous| + 1..] == y;
    }
  }

  // ---- Export and offline verification ----------------------------------------------

  function ExportedRow(rows: seq<AuditRow>, i: nat, event: Json): Json
    requires i < |rows|
  {
    Obj(map[
      "sequence" := Int(rows[i].sequence), "event" := event,
      "previous_hash" := Str(PreviousHash(rows, i)), "event_hash" := Str(rows[i].hash)])
  }

  function ExportPayload(events: seq<Json>, finalHash: string): Json {
    Obj(map[
      "format" := Str("cloudops-audit-chain-v1"), "algorithm" := Str("sha256"),
      "genesis_hash" := Str(""), "events" := Arr(events), "final_hash" := Str(finalHash)])
  }

  function ExportedEvents(clock: nat -> string, rows: seq<AuditRow>): (events: seq<Json>)
    ensures |events| == |rows|
  {
    seq(|rows|, i requires 0 <= i < |rows| =>
      ExportedRow(rows, i, if ReadEvent(clock, rows, i).Some? then ReadEvent(clock, rows, i).value else Null))
  }

  /** get_verifiable_export: the payload, or the index of the first row that fails the diagnostics. */
  method Export(env: Env, clock: nat -> string, rows: seq<AuditRow>) returns (r: Result<Json, nat>)
    ensures r.Ok? <==> DiagnosticsPass(env, clock, rows)
    ensures r.Ok? ==> r.value == ExportPayload(ExportedEvents(clock, rows), TailHash(rows))
    ensures r.Err? ==>
              && r.error < |rows| && !DiagnosticOk(env, clock, rows, r.error)
              && forall i :: 0 <= i < r.error ==> DiagnosticOk(env, clock, rows, i)
  {
    ghost var all := ExportedEvents(clock, rows);
    var events: seq<Json> := [];
    var previous := "";
    for index := 0 to |rows|
      invariant previous == PreviousHash(rows, index)
      invariant |events| == index && events == all[..index]
      invariant forall i :: 0 <= i < index ==> DiagnosticOk(env, clock, rows, i)
    {
      var row := rows[index];
      var event := if row.json.Decoded? then EventFields(row.json.value, clock(index)) else None;
      if event.None? {
        assert !DiagnosticOk(env, clock, rows, index);
        return Err(index);
      }
      var expected := LinkHash(env, previous, event.value);
      if expected.None? || |row.hash| != 64 || expected.value != row.hash {
        assert !DiagnosticOk(env, clock, rows, index);
        return Err(index);
      }
      events := events + [ExportedRow(rows, index, event.value)];
      previous := row.hash;
    }
    assert events == all;
    r := Ok(ExportPayload(events, previous));
  }

  function StoredHash(row: Json): string {
    if row.Obj? && "event_hash" in row.fields && row.fields["event_hash"].Str?
    then row.fields["event_hash"].s else ""
  }

  function ExportedPrevious(events: seq<Json>, i: nat): string
    requires i <= |events|
  {
    if i == 0 then "" else StoredHash(events[i - 1])
  }

  /** One exported row continues a chain whose tail is (sequence - 1, previous). */
  predicate RowVerifies(env: Env, row: Json, sequence: int, previous: string) {
    && row.Obj?
    && Get(row.fields, "sequence") == Some(Int(sequence))
    && Get(row.fields, "previous_hash") == Some(Str(previous))
    && "event" in row.fields && row.fields["event"].Obj?
    && "event_hash" in row.fields && row.fields["event_hash"].Str?
    && LinkHash(env, previous, row.fields["event"]) == Some(row.fields["event_hash"].s)
  }

  predicate ExportedRowOk(env: Env, events: seq<Json>, i: nat)
    requires i < |events|
  {
    RowVerifies(env, events[i], i + 1, ExportedPrevious(events, i))
  }

  predicate HeaderOk(fields: map<string, Json>) {
    && Get(fields, "format") == Some(Str("cloudops-audit-chain-v1"))
    && Get(fields, "algorithm") == Some(Str("sha256"))
    && Get(fields, "genesis_hash") == Some(Str(""))
    && "events" in fields && fields["events"].Arr?
  }

  /** The payload is a self-consistent chain export. */
  predicate ExportVerifies(env: Env, payload: Json) {
    && payload.Obj? && HeaderOk(payload.fields)
    && var events := payload.fields["events"].items;
    && (forall i :: 0 <= i < |events| ==> ExportedRowOk(env, events, i))
    && Get(payload.fields, "final_hash") == Some(Str(ExportedPrevious(events, |events|)))
  }

  datatype Verdict = Verified(count: nat) | NotAnExport | RowRejected(index: nat) | FinalHashMismatch

  method VerifyRow(env: Env, row: Json, previousSequence: int, previousHash: string) returns (ok: bool)
    ensures ok <==> RowVerifies(env, row, previousSequence + 1, previousHash)
  {
    if !row.Obj? { return false; }
    var fields := row.fields;
    if Get(fields, "sequence") != Some(Int(previousSequence + 1)) { return false; }
    if Get(fields, "previous_hash") != Some(Str(previousHash)) { return false; }
    if "event" !in fields || !fields["event"].Obj? { return false; }
    if "event_hash" !in fields || !fields["event_hash"].Str? { return false; }
    var stored := fields["event_hash"].s;
    ok := IsHex64(stored) && LinkHash(env, previousHash, fields["event"]) == Some(stored);
  }

  /** The offline verifier, for any decoded JSON at all. */
  method VerifyExport(env: Env, payload: Json) returns (v: Verdict)
    ensures v.Verified? <==> ExportVerifies(env, payload)
    ensures v.NotAnExport? <==> !(payload.Obj? && HeaderOk(payload.fields))
    ensures v.Verified? ==> v.count == |payload.fields["events"].items|
    ensures v.RowRejected? ==>
              var events := payload.fields["events"].items;
              && v.index < |events| && !ExportedRowOk(env, events, v.index)
              && forall i :: 0 <= i < v.index ==> ExportedRowOk(env, events, i)
  {
    if !payload.Obj? { return NotAnExport; }
    var fields := payload.fields;
    if Get(fields, "format") != Some(Str("cloudops-audit-chain-v1")) { return NotAnExport; }
    if Get(fields, "algorithm") != Some(Str("sha256")) || Get(fields, "genesis_hash") != Some(Str("")) {
      return NotAnExport;
    }
    if "events" !in fields || !fields["events"].Arr? { return NotAnExport; }
    var events := fields["events"].items;

    var previousHash, previousSequence := "", 0;
    for index := 0 to |events|
      invariant previousHash == ExportedPrevious(events, index) && previousSequence == index
      invariant forall i :: 0 <= i < index ==> ExportedRowOk(env, events, i)
    {
      var ok := VerifyRow(env, events[index], previousSequence, previousHash);
      assert ok <==> ExportedRowOk(env, events, index);
      if !ok { return RowRejected(index); }
      previousHash, previousSequence := StoredHash(events[index]), previousSequence + 1;
    }
    if Get(fields, "final_hash") != Some(Str(previousHash)) { return FinalHashMismatch; }
    v := Verified(|events|);
  }

  lemma ExportedRowVerifies(env: Env, rows: seq<AuditRow>, i: nat, event: Json)
    requires i < |rows| && rows[i].sequence == i + 1 && event.Obj?
    requires LinkHash(env, PreviousHash(rows, i), event) == Some(rows[i].hash)
    ensures RowVerifies(env, ExportedRow(rows, i, event), i + 1, PreviousHash(rows, i))
  {
  }

  lemma HeaderOfExport(events: seq<Json>, finalHash: string)
    ensures var payload := ExportPayload(events, finalHash);
            && HeaderOk(payload.fields) && payload.fields["events"].items == events
            && Get(payload.fields, "final_hash") == Some(Str(finalHash))
  {
  }

  /** The export of a contiguous log that passes the diagnostics passes the offline verifier. */
  lemma ExportOfLogVerifies(env: Env, clock: nat -> string, rows: seq<AuditRow>)
    requires Contiguous(rows) && DiagnosticsPass(env, clock, rows)
    ensures ExportVerifies(env, ExportPayload(ExportedEvents(clock, rows), TailHash(rows)))
  {
    var events := ExportedEvents(clock, rows);
    forall i | 0 <= i < |events| ensures ExportedRowOk(env, events, i) {
      assert DiagnosticOk(env, clock, rows, i);
      assert ExportedPrevious(events, i) == PreviousHash(rows, i);
      ExportedRowVerifies(env, rows, i, ReadEvent(clock, rows, i).value);
    }
    assert ExportedPrevious(events, |events|) == TailHash(rows);
    HeaderOfExport(events, TailHash(rows));
  }

  /** The rows an export claims. */
  function ClaimedRows(events: seq<Json>): (rows: seq<AuditRow>)
    ensures |rows| == |events|
  {
    seq(|events|, i requires 0 <= i < |events| =>
      AuditRow(i + 1,
               if events[i].Obj? && "event" in events[i].fields then Decoded(events[i].fields["event"]) else Malformed,
               StoredHash(events[i])))
  }

  /** And nothing else does: whatever the verifier accepts is a contiguous linked chain with the
      stated final hash, so two accepted exports with one final hash are bound to each other. */
  lemma AcceptedExportIsAChain(env: Env, payload: Json)
    requires ExportVerifies(env, payload)
    ensures var rows := ClaimedRows(payload.fields["events"].items);
            && Contiguous(rows) && Linked(env, rows)
            && Get(payload.fields, "final_hash") == Some(Str(TailHash(rows)))
  {
    var events := payload.fields["events"].items;
    var rows := ClaimedRows(events);
    forall i | 0 <= i < |rows| ensures LinkOk(env, rows, i) {
      assert ExportedRowOk(env, events, i);
      assert PreviousHash(rows, i) == ExportedPrevious(events, i);
    }
  }

  lemma DiagnosticOfPrefix(env: Env, clock: nat -> string, origin: seq<AuditRow>, rows: seq<AuditRow>, i: nat)
    requires origin <= rows && i < |origin|
    ensures DiagnosticOk(env, clock, rows, i) <==> DiagnosticOk(env, clock, origin, i)
  {
    assert PreviousHash(rows, i) == PreviousHash(origin, i);
  }

  /** What a log has grown from decides, at any time, whether the diagnostics accept it. */
  lemma GrownKeepsDiagnostics(env: Env, clock: nat -> string, origin: seq<AuditRow>, rows: seq<AuditRow>)
    requires GrownFrom(env, origin, rows)
    ensures DiagnosticsPass(env, clock, rows) <==> DiagnosticsPass(env, clock, origin)
  {
    forall i | 0 <= i < |origin| ensures DiagnosticOk(env, clock, rows, i) <==> DiagnosticOk(env, clock, origin, i) {
      DiagnosticOfPrefix(env, clock, origin, rows, i);
    }
    forall i | |origin| <= i < |rows| ensures DiagnosticOk(env, clock, rows, i) {
      assert CarriesEveryField(rows[i].json) && LinkOk(env, rows, i);
      CompleteEventIsItself(rows[i].json, clock(i));
    }
  }

  predicate Timestamped(rows: seq<AuditRow>) {
    forall i :: 0 <= i < |rows| && rows[i].json.Decoded? && rows[i].json.value.Obj? ==>
      "timestamp" in rows[i].json.value.fields
  }

  lemma StampedEventIgnoresClock(data: Json, now: string, later: string)
    requires data.Obj? ==> "timestamp" in data.fields
    ensures EventFields(data, now) == EventFields(data, later)
  {
    if data.Obj? {
      var rest := map["details" := Obj(map[]), "actor_id" := Null];
      assert map["timestamp" := Str(now), "details" := Obj(map[]), "actor_id" := Null] + data.fields
             == rest + data.fields;
      assert map["timestamp" := Str(later), "details" := Obj(map[]), "actor_id" := Null] + data.fields
             == rest + data.fields;
    }
  }

  /** Only a missing timestamp makes the diagnostics depend on when they run. */
  lemma DiagnosticsIgnoreTheClock(env: Env, clock: nat -> string, later: nat -> string, rows: seq<AuditRow>)
    requires Timestamped(rows) && DiagnosticsPass(env, clock, rows)
    ensures DiagnosticsPass(env, later, rows)
  {
    forall i | 0 <= i < |rows| ensures DiagnosticOk(env, later, rows, i) {
      assert DiagnosticOk(env, clock, rows, i);
      StampedEventIgnoresClock(rows[i].json.value, clock(i), later(i));
    }
  }

  /** Reachable logs: the diagnostics accept at a given time exactly when they accept the log's origin,
      in particular every log that began empty and every one whose imported rows are timestamped; and
      whenever they accept, the export passes the offline verifier. */
  lemma ReachableLogExportVerifies(env: Env,
                                   clock: nat -> string, c: Chain, origin: seq<AuditRow>, steps: seq<ChainStep>,
                                   before: nat -> string)
    requires HeadOk(c) && GrownFrom(env, origin, c.rows)
    ensures var (rows, first) := (Run(env, c, steps).rows, Origin(env, c, origin, steps));
            && (DiagnosticsPass(env, clock, rows) <==> DiagnosticsPass(env, clock, first))
            && (Timestamped(first) && DiagnosticsPass(env, before, first) ==> DiagnosticsPass(env, clock, rows))
            && (DiagnosticsPass(env, clock, rows) ==>
                  ExportVerifies(env, ExportPayload(ExportedEvents(clock, rows), TailHash(rows))))
  {
    HeadHoldsInEveryRun(env, c, origin, steps);
    var (rows, first) := (Run(env, c, steps).rows, Origin(env, c, origin, steps));
    GrownKeepsDiagnostics(env, clock, first, rows);
    if Timestamped(first) && DiagnosticsPass(env, before, first) {
      DiagnosticsIgnoreTheClock(env, before, clock, first);
    }
    if DiagnosticsPass(env, clock, rows) { ExportOfLogVerifies(env, clock, rows); }
  }
}
