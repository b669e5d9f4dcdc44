/** The hash-chained audit log: rows, the singleton head row, and what appending does to both. */
module AuditChain {
  import opened Outcomes
  import opened Text
  import opened JsonValues

  newtype byte = x: int | 0 <= x < 256

  type Bytes = seq<byte>

  /** The two library functions the chain rests on, both left abstract: canonical JSON bytes
      (None when json.dumps or the UTF-8 encoding raises) and SHA-256. */
  datatype Env = Env(canon: Json -> Option<Bytes>, sha: Bytes -> Hex64)

  datatype AuditEvent = AuditEvent(
    actionId: string, actionType: string, resourceType: string, resourceId: string,
    oldStatus: string, newStatus: string, event: string, timestamp: string,
    details: map<string, Json>, actorId: Option<string>)

  /** The checks AuditTrail.record makes before it builds an event. */
  predicate RecordValid(e: AuditEvent) {
    && !Blank(e.actionId) && !Blank(e.actionType) && !Blank(e.resourceType) && !Blank(e.resourceId)
    && !Blank(e.oldStatus) && !Blank(e.newStatus) && !Blank(e.event)
    && (e.actorId.Some? ==> !Blank(e.actorId.value))
  }

  const REQUIRED_FIELDS: set<string> :=
    {"action_id", "action_type", "resource_type", "resource_id", "old_status", "new_status", "event"}

  const ALL_FIELDS: set<string> := REQUIRED_FIELDS + {"timestamp", "details", "actor_id"}

  /** asdict(event). */
  function EventJson(e: AuditEvent): Json {
    Obj(map[
      "action_id" := Str(e.actionId), "action_type" := Str(e.actionType),
      "resource_type" := Str(e.resourceType), "resource_id" := Str(e.resourceId),
      "old_status" := Str(e.oldStatus), "new_status" := Str(e.newStatus),
      "event" := Str(e.event), "timestamp" := Str(e.timestamp),
      "details" := Obj(e.details),
      "actor_id" := if e.actorId.Some? then Str(e.actorId.value) else Null
    ])
  }

  /** asdict(AuditEvent(**data)): unknown or missing keys raise, optional ones take their defaults. */
  function EventFields(data: Json, now: string): Option<Json> {
    if data.Obj? && REQUIRED_FIELDS <= data.fields.Keys <= ALL_FIELDS then
      Some(Obj(map["timestamp" := Str(now), "details" := Obj(map[]), "actor_id" := Null] + data.fields))
    else
      None
  }

  predicate TextAt(fields: map<string, Json>, key: string) {
    key in fields && fields[key].Str?
  }

  /** AuditEvent(**data) of one stored row, key by key; None where it raises or a field has another type. */
  function EventOf(data: Json, now: string): Option<AuditEvent> {
    if !data.Obj? || !(data.fields.Keys <= ALL_FIELDS) then None
    else
      var f := data.fields;
      var required := && TextAt(f, "action_id") && TextAt(f, "action_type") && TextAt(f, "resource_type")
                      && TextAt(f, "resource_id") && TextAt(f, "old_status") && TextAt(f, "new_status")
                      && TextAt(f, "event");
      var stamp, details := Get(f, "timestamp"), Get(f, "details");
      var actor := Get(f, "actor_id");
      if !required || !(stamp.Some? ==> stamp.value.Str?) || !(details.Some? ==> details.value.Obj?)
         || !(actor.Some? ==> actor.value.Null? || actor.value.Str?)
      then None
      else Some(AuditEvent(
        f["action_id"].s, f["action_type"].s, f["resource_type"].s, f["resource_id"].s,
        f["old_status"].s, f["new_status"].s, f["event"].s, if stamp.Some? then stamp.value.s else now,
        if details.Some? then details.value.fields else map[],
        if actor.Some? && actor.value.Str? then Some(actor.value.s) else None))
  }

  /** Whenever it is read, the row says exactly this event. */
  ghost predicate Says(row: AuditRow, e: AuditEvent) {
    row.json.Decoded? && forall now :: EventOf(row.json.value, now) == Some(e)
  }

  /** A recorded event reads back as itself, the actor, the timestamp and the details included. */
  lemma EventReadsBack(e: AuditEvent, now: string)
    ensures EventOf(EventJson(e), now) == Some(e)
  {
  }

  predicate CarriesEveryField(text: JsonText) {
    text.Decoded? && text.value.Obj? && text.value.fields.Keys == ALL_FIELDS
  }

  lemma CompleteEventIsItself(text: JsonText, now: string)
    requires CarriesEveryField(text)
    ensures EventFields(text.value, now) == Some(text.value)
  {
    var defaults := map["timestamp" := Str(now), "details" := Obj(map[]), "actor_id" := Null];
    assert defaults + text.value.fields == text.value.fields;
  }

  /** Key by key, what reading an event takes from its row. */
  predicate Reads(f: map<string, Json>, now: string, e: AuditEvent) {
    && REQUIRED_FIELDS <= f.Keys <= ALL_FIELDS
    && f["action_id"] == Str(e.actionId) && f["action_type"] == Str(e.actionType)
    && f["resource_type"] == Str(e.resourceType) && f["resource_id"] == Str(e.resourceId)
    && f["old_status"] == Str(e.oldStatus) && f["new_status"] == Str(e.newStatus) && f["event"] == Str(e.event)
    && (if "timestamp" in f then f["timestamp"] == Str(e.timestamp) else e.timestamp == now)
    && (if "details" in f then f["details"] == Obj(e.details) else e.details == map[])
    && (if "actor_id" in f && f["actor_id"] != Null then e.actorId.Some? && f["actor_id"] == Str(e.actorId.value)
        else e.actorId.None?)
  }

  lemma EventIsRead(data: Json, now: string)
    requires EventOf(data, now).Some?
    ensures Reads(data.fields, now, EventOf(data, now).value)
  {
  }

  lemma ReadFieldsAreDict(f: map<string, Json>, now: string, e: AuditEvent)
    requires Reads(f, now, e)
    ensures map["timestamp" := Str(now), "details" := Obj(map[]), "actor_id" := Null] + f == EventJson(e).fields
  {
  }

  /** The diagnostics rebuild what the row says: asdict of the event that reading it constructs. */
  lemma RebuiltEventIsRead(data: Json, now: string)
    requires EventOf(data, now).Some?
    ensures EventFields(data, now) == Some(EventJson(EventOf(data, now).value))
  {
    EventIsRead(data, now);
    ReadFieldsAreDict(data.fields, now, EventOf(data, now).value);
  }

  // ---- Links -------------------------------------------------------------------

  predicate IsAscii(s: string) {
    forall i :: 0 <= i < |s| ==> s[i] as int < 128
  }

  /** What SHA-256 is fed for one link: the previous hash, a NUL byte, the canonical event. */
  function LinkInput(previous: string, body: Bytes): Bytes
    requires IsAscii(previous)
  {
    seq(|previous|, i requires 0 <= i < |previous| => previous[i] as byte) + [0] + body
  }

  /** AuditTrail._calculate_hash; None where it raises. */
  function LinkHash(env: Env, previous: string, event: Json): Option<string> {
    match env.canon(event)
    case None => None
    case Some(body) => if IsAscii(previous) then Some(env.sha(LinkInput(previous, body))) else None
  }

  datatype AuditRow = AuditRow(sequence: int, json: JsonText, hash: string)

  function PreviousHash(rows: seq<AuditRow>, i: nat): string
    requires i <= |rows|
  {
    if i == 0 then "" else rows[i - 1].hash
  }

  function TailHash(rows: seq<AuditRow>): string {
    PreviousHash(rows, |rows|)
  }

  function TailSequence(rows: seq<AuditRow>): int {
    if rows == [] then 0 else rows[|rows| - 1].sequence
  }

  /** Row i's stored hash recomputes from its stored JSON and its predecessor's stored hash. */
  predicate LinkOk(env: Env, rows: seq<AuditRow>, i: nat)
    requires i < |rows|
  {
    && rows[i].json.Decoded?
    && rows[i].json.value.Obj?
    && LinkHash(env, PreviousHash(rows, i), rows[i].json.value) == Some(rows[i].hash)
  }

  predicate Linked(env: Env, rows: seq<AuditRow>) {
    forall i :: 0 <= i < |rows| ==> LinkOk(env, rows, i)
  }

  predicate Contiguous(rows: seq<AuditRow>) {
    forall i :: 0 <= i < |rows| ==> rows[i].sequence == i + 1
  }

  predicate Complete(rows: seq<AuditRow>) {
    forall i :: 0 <= i < |rows| ==> CarriesEveryField(rows[i].json)
  }

  /** The event that reading row i at time clock(i) rebuilds, as a JSON object; None where it raises. */
  function ReadEvent(clock: nat -> string, rows: seq<AuditRow>, i: nat): Option<Json>
    requires i < |rows|
  {
    if rows[i].json.Decoded? then EventFields(rows[i].json.value, clock(i)) else None
  }

  /** Row i passes get_integrity_diagnostics: the event it rebuilds hashes, over the previous
      stored hash, to the stored one. */
  predicate DiagnosticOk(env: Env, clock: nat -> string, rows: seq<AuditRow>, i: nat)
    requires i < |rows|
  {
    && ReadEvent(clock, rows, i).Some?
    && LinkHash(env, PreviousHash(rows, i), ReadEvent(clock, rows, i).value) == Some(rows[i].hash)
  }

  predicate DiagnosticsPass(env: Env, clock: nat -> string, rows: seq<AuditRow>) {
    forall i :: 0 <= i < |rows| ==> DiagnosticOk(env, clock, rows, i)
  }

  lemma LinkedHashesAreDigests(env: Env, rows: seq<AuditRow>, i: nat)
    requires i <= |rows| && (i > 0 ==> LinkOk(env, rows, i - 1))
    ensures IsAscii(PreviousHash(rows, i))
    ensures i == 0 ==> PreviousHash(rows, i) == ""
    ensures i > 0 ==> IsHex64(PreviousHash(rows, i))
  {
  }

  lemma LinkedPrefix(env: Env, rows: seq<AuditRow>)
    requires Linked(env, rows) && rows != []
    ensures Linked(env, rows[..|rows| - 1])
  {
    var front := rows[..|rows| - 1];
    forall i | 0 <= i < |front| ensures LinkOk(env, front, i) {
      assert LinkOk(env, rows, i);
    }
  }

  // ---- The shared log ------------------------------------------------------------

  /** The audit_events rows in sequence order, and the audit_chain_state row. */
  datatype Chain = Chain(rows: seq<AuditRow>, lastSequence: int, lastHash: string)

  const EMPTY_CHAIN := Chain([], 0, "")

  datatype AuditError = InvalidEvent | NotCanonical | HeadInconsistent

  /** One append under the head lock, all or nothing. */
  function TryAppend(env: Env, c: Chain, e: AuditEvent): Result<Chain, AuditError> {
    if !RecordValid(e) then Err(InvalidEvent)
    else if env.canon(EventJson(e)).None? then Err(NotCanonical)
    else if c.lastSequence != TailSequence(c.rows) || c.lastHash != TailHash(c.rows) then Err(HeadInconsistent)
    else
      match LinkHash(env, TailHash(c.rows), EventJson(e))
      case None => Err(NotCanonical)
      case Some(hash) =>
        var sequence := TailSequence(c.rows) + 1;
        Ok(Chain(c.rows + [AuditRow(sequence, Decoded(EventJson(e)), hash)], sequence, hash))
  }

  /** The event can be recorded at all, whatever the log holds. */
  predicate Recordable(env: Env, e: AuditEvent) {
    RecordValid(e) && env.canon(EventJson(e)).Some?
  }

  /** The head row is the tail, sequences are 1..n, and every stored hash is a digest. */
  predicate HeadOk(c: Chain) {
    && c.lastSequence == |c.rows|
    && c.lastHash == TailHash(c.rows)
    && Contiguous(c.rows)
    && forall i :: 0 <= i < |c.rows| ==> IsHex64(c.rows[i].hash)
  }

  /** `rows` extends `origin` by rows that carry every field and whose links recompute. */
  ghost predicate GrownFrom(env: Env, origin: seq<AuditRow>, rows: seq<AuditRow>) {
    && origin <= rows
    && (forall i :: |origin| <= i < |rows| ==> LinkOk(env, rows, i))
    && (forall i :: |origin| <= i < |rows| ==> CarriesEveryField(rows[i].json))
  }

  lemma LinkOfPrefix(env: Env, origin: seq<AuditRow>, rows: seq<AuditRow>, i: nat)
    requires origin <= rows && i < |origin|
    ensures LinkOk(env, rows, i) <==> LinkOk(env, origin, i)
  {
    assert PreviousHash(rows, i) == PreviousHash(origin, i);
  }

  /** What a log has grown from decides whether all of it verifies. */
  lemma GrownLinks(env: Env, origin: seq<AuditRow>, rows: seq<AuditRow>)
    requires GrownFrom(env, origin, rows)
    ensures Linked(env, rows) <==> Linked(env, origin)
    ensures Complete(rows) <==> Complete(origin)
  {
    forall i | 0 <= i < |origin| ensures LinkOk(env, rows, i) <==> LinkOk(env, origin, i) {
      LinkOfPrefix(env, origin, rows, i);
    }
    assert forall i :: 0 <= i < |origin| ==> origin[i] == rows[i];
  }

  lemma GrownChains(env: Env, a: seq<AuditRow>, b: seq<AuditRow>, c: seq<AuditRow>)
    requires GrownFrom(env, a, b) && GrownFrom(env, b, c)
    ensures GrownFrom(env, a, c)
  {
    forall i | |a| <= i < |c| ensures LinkOk(env, c, i) && CarriesEveryField(c[i].json) {
      if i < |b| { LinkOfPrefix(env, b, c, i); }
    }
  }

  lemma ExtendKeepsHead(env: Env, c: Chain, json: Json, hash: string)
    requires HeadOk(c)
    requires CarriesEveryField(Decoded(json))
    requires LinkHash(env, TailHash(c.rows), json) == Some(hash)
    ensures var rows := c.rows + [AuditRow(|c.rows| + 1, Decoded(json), hash)];
            HeadOk(Chain(rows, |rows|, hash)) && GrownFrom(env, c.rows, rows)
  {
    var rows := c.rows + [AuditRow(|c.rows| + 1, Decoded(json), hash)];
    assert PreviousHash(rows, |c.rows|) == TailHash(c.rows);
  }

  lemma EventJsonIsComplete(e: AuditEvent)
    ensures CarriesEveryField(Decoded(EventJson(e)))
  {
  }

  lemma HeadIsTail(c: Chain)
    requires HeadOk(c)
    ensures TailSequence(c.rows) == |c.rows| && IsAscii(TailHash(c.rows))
  {
  }

  /** Appending to a good log never trips the inconsistency guard: it succeeds exactly when the
      event is recordable, adds exactly that event under a link that recomputes, and leaves a good log. */
  lemma AppendKeepsHead(env: Env, c: Chain, e: AuditEvent)
    requires HeadOk(c)
    ensures TryAppend(env, c, e).Ok? <==> Recordable(env, e)
    ensures TryAppend(env, c, e) != Err(HeadInconsistent)
    ensures TryAppend(env, c, e).Ok? ==>
              && HeadOk(TryAppend(env, c, e).value)
              && GrownFrom(env, c.rows, TryAppend(env, c, e).value.rows)
              && TryAppend(env, c, e).value.rows
                 == c.rows + [AuditRow(|c.rows| + 1, Decoded(EventJson(e)), TryAppend(env, c, e).value.lastHash)]
  {
    var json := EventJson(e);
    HeadIsTail(c);
    EventJsonIsComplete(e);
    if Recordable(env, e) {
      ExtendKeepsHead(env, c, json, LinkHash(env, TailHash(c.rows), json).value);
    }
  }

  /** An event is invalid exactly when one of its seven texts, or the actor it names, is blank; and no recorded
      event is. */
  lemma BlankEventsAreRefused(env: Env, c: Chain, e: AuditEvent)
    ensures TryAppend(env, c, e) == Err(InvalidEvent) <==>
              || Blank(e.actionId) || Blank(e.actionType) || Blank(e.resourceType) || Blank(e.resourceId)
              || Blank(e.oldStatus) || Blank(e.newStatus) || Blank(e.event)
              || (e.actorId.Some? && Blank(e.actorId.value))
  {
  }

  /** Whatever the log held, a successful append adds one row, and it says exactly the event. */
  lemma AppendReadsBack(env: Env, c: Chain, e: AuditEvent)
    requires TryAppend(env, c, e).Ok?
    ensures var rows := TryAppend(env, c, e).value.rows;
            |rows| == |c.rows| + 1 && c.rows <= rows && Says(rows[|c.rows|], e)
  {
    forall now ensures EventOf(EventJson(e), now) == Some(e) { EventReadsBack(e, now); }
  }

  // ---- Every run of the log ------------------------------------------------------

  /** Several appends inside a transaction the caller owns; the first failure aborts them all. */
  function AppendAll(env: Env, c: Chain, events: seq<AuditEvent>): Result<Chain, AuditError>
    decreases |events|
  {
    if events == [] then Ok(c)
    else
      match TryAppend(env, c, events[0])
      case Err(error) => Err(error)
      case Ok(d) => AppendAll(env, d, events[1..])
  }

  /** One transaction against the log, by any worker. */
  datatype ChainStep =
    | Record(e: AuditEvent)
    | InCallerTransaction(events: seq<AuditEvent>, commits: bool)
    | Clear
    | Import(rows: seq<AuditRow>, clock: nat -> string)

  /** What the importer demands of the audit rows it copies into an empty log. */
  predicate Importable(env: Env, clock: nat -> string, rows: seq<AuditRow>) {
    DiagnosticsPass(env, clock, rows) && Contiguous(rows)
  }

  function Apply(env: Env, c: Chain, step: ChainStep): Chain {
    match step
    case Record(e) =>
      var r := TryAppend(env, c, e); if r.Ok? then r.value else c
    case InCallerTransaction(events, commits) =>
      var r := AppendAll(env, c, events); if commits && r.Ok? then r.value else c
    case Clear => EMPTY_CHAIN
    case Import(rows, clock) =>
      if c.rows == [] && Importable(env, clock, rows) then Chain(rows, |rows|, TailHash(rows)) else c
  }

  function Run(env: Env, c: Chain, steps: seq<ChainStep>): Chain
    decreases |steps|
  {
    if steps == [] then c else Run(env, Apply(env, c, steps[0]), steps[1..])
  }

  /** The rows the log has grown from: the imported ones after an import, none after a clear, and
      `origin` if there was neither. */
  function OriginAfter(env: Env, c: Chain, origin: seq<AuditRow>, step: ChainStep): seq<AuditRow> {
    match step
    case Clear => []
    case Import(rows, clock) => if c.rows == [] && Importable(env, clock, rows) then rows else origin
    case _ => origin
  }

  function Origin(env: Env, c: Chain, origin: seq<AuditRow>, steps: seq<ChainStep>): seq<AuditRow>
    decreases |steps|
  {
    if steps == [] then origin
    else Origin(env, Apply(env, c, steps[0]), OriginAfter(env, c, origin, steps[0]), steps[1..])
  }

  lemma {:induction false} AppendAllKeepsHead(env: Env, c: Chain, events: seq<AuditEvent>)
    requires HeadOk(c)
    ensures AppendAll(env, c, events).Ok? ==>
              HeadOk(AppendAll(env, c, events).value) && GrownFrom(env, c.rows, AppendAll(env, c, events).value.rows)
    ensures AppendAll(env, c, events) != Err(HeadInconsistent)
    decreases |events|
  {
    if events != [] {
      AppendKeepsHead(env, c, events[0]);
      var r := TryAppend(env, c, events[0]);
      if r.Ok? {
        AppendAllKeepsHead(env, r.value, events[1..]);
        var all := AppendAll(env, r.value, events[1..]);
        if all.Ok? { GrownChains(env, c.rows, r.value.rows, all.value.rows); }
      }
    }
  }

  lemma ImportableHashesAreDigests(env: Env, clock: nat -> string, rows: seq<AuditRow>)
    requires Importable(env, clock, rows)
    ensures HeadOk(Chain(rows, |rows|, TailHash(rows)))
  {
    forall i | 0 <= i < |rows| ensures IsHex64(rows[i].hash) {
      assert DiagnosticOk(env, clock, rows, i);
    }
  }

  lemma StepKeepsHead(env: Env, c: Chain, origin: seq<AuditRow>, step: ChainStep)
    requires HeadOk(c) && GrownFrom(env, origin, c.rows)
    ensures HeadOk(Apply(env, c, step)) && GrownFrom(env, OriginAfter(env, c, origin, step), Apply(env, c, step).rows)
  {
    var d := Apply(env, c, step);
    match step {
      case Record(e) => AppendKeepsHead(env, c, e);
      case InCallerTransaction(events, _) => AppendAllKeepsHead(env, c, events);
      case Clear =>
      case Import(rows, clock) =>
        if Importable(env, clock, rows) { ImportableHashesAreDigests(env, clock, rows); }
    }
    if !step.Clear? && !step.Import? && d != c { GrownChains(env, origin, c.rows, d.rows); }
  }

  /** In every reachable state, under any interleaving of any number of workers, sequences are 1..n and
      the head row is the tail, so the next append succeeds if its event is recordable. Every row
      recorded since the log's origin recomputes, so the whole chain does exactly when its origin does:
      always, unless rows were imported (or found at the start) whose stored events do not link. */
  lemma {:induction false} HeadHoldsInEveryRun(env: Env, c: Chain, origin: seq<AuditRow>, steps: seq<ChainStep>)
    requires HeadOk(c) && GrownFrom(env, origin, c.rows)
    ensures HeadOk(Run(env, c, steps))
    ensures forall e :: TryAppend(env, Run(env, c, steps), e).Ok? <==> Recordable(env, e)
    ensures GrownFrom(env, Origin(env, c, origin, steps), Run(env, c, steps).rows)
    ensures Linked(env, Run(env, c, steps).rows) <==> Linked(env, Origin(env, c, origin, steps))
    decreases |steps|
  {
    if steps == [] {
      forall e ensures TryAppend(env, c, e).Ok? <==> Recordable(env, e) { AppendKeepsHead(env, c, e); }
      GrownLinks(env, origin, c.rows);
    } else {
      StepKeepsHead(env, c, origin, steps[0]);
      HeadHoldsInEveryRun(env, Apply(env, c, steps[0]), OriginAfter(env, c, origin, steps[0]), steps[1..]);
    }
  }

  /** What a log tells: the rows it started or was filled with, and the events recorded since. */
  datatype Journal = Journal(origin: seq<AuditRow>, events: seq<AuditEvent>)

  /** One transaction against a journal, which knows of neither rows nor hashes. */
  function Note(env: Env, j: Journal, step: ChainStep): Journal {
    match step
    case Record(e) => if Recordable(env, e) then j.(events := j.events + [e]) else j
    case InCallerTransaction(events, commits) =>
      if commits && forall i :: 0 <= i < |events| ==> Recordable(env, events[i])
      then j.(events := j.events + events) else j
    case Clear => Journal([], [])
    case Import(rows, clock) =>
      if j.origin == [] && j.events == [] && Importable(env, clock, rows) then Journal(rows, []) else j
  }

  function NoteAll(env: Env, j: Journal, steps: seq<ChainStep>): Journal
    decreases |steps|
  {
    if steps == [] then j else NoteAll(env, Note(env, j, steps[0]), steps[1..])
  }

  /** The rows are the journal's origin followed by one row for each of its events, in order. */
  ghost predicate Tells(rows: seq<AuditRow>, j: Journal) {
    && |rows| == |j.origin| + |j.events| && j.origin <= rows
    && forall i :: 0 <= i < |j.events| ==> Says(rows[|j.origin| + i], j.events[i])
  }

  lemma OneMoreTold(rows: seq<AuditRow>, after: seq<AuditRow>, j: Journal, e: AuditEvent)
    requires Tells(rows, j) && |after| == |rows| + 1 && rows <= after && Says(after[|rows|], e)
    ensures Tells(after, j.(events := j.events + [e]))
  {
    var events := j.events + [e];
    forall i | 0 <= i < |events| ensures Says(after[|j.origin| + i], events[i]) {
      if i < |j.events| { assert Says(rows[|j.origin| + i], j.events[i]); }
    }
  }

  lemma {:induction false} AppendAllSucceeds(env: Env, c: Chain, events: seq<AuditEvent>)
    requires HeadOk(c)
    ensures AppendAll(env, c, events).Ok? <==> forall i :: 0 <= i < |events| ==> Recordable(env, events[i])
    decreases |events|
  {
    if events != [] {
      var (first, rest) := (TryAppend(env, c, events[0]), events[1..]);
      AppendKeepsHead(env, c, events[0]);
      if first.Ok? { AppendAllSucceeds(env, first.value, rest); }
      assert (forall i :: 0 <= i < |events| ==> Recordable(env, events[i]))
        <==> Recordable(env, events[0]) && forall i :: 0 <= i < |rest| ==> Recordable(env, rest[i]);
    }
  }

  lemma {:induction false} AppendAllTells(env: Env, c: Chain, events: seq<AuditEvent>, j: Journal)
    requires Tells(c.rows, j) && AppendAll(env, c, events).Ok?
    ensures Tells(AppendAll(env, c, events).value.rows, j.(events := j.events + events))
    decreases |events|
  {
    if events == [] {
      assert j.events + events == j.events;
    } else {
      var (first, rest) := (TryAppend(env, c, events[0]), events[1..]);
      AppendReadsBack(env, c, events[0]);
      OneMoreTold(c.rows, first.value.rows, j, events[0]);
      AppendAllTells(env, first.value, rest, j.(events := j.events + [events[0]]));
      assert (j.events + [events[0]]) + rest == j.events + events;
    }
  }

  lemma StepTells(env: Env, c: Chain, j: Journal, step: ChainStep)
    requires HeadOk(c) && Tells(c.rows, j)
    ensures Tells(Apply(env, c, step).rows, Note(env, j, step))
  {
    match step {
      case Record(e) =>
        AppendKeepsHead(env, c, e);
        if Recordable(env, e) {
          AppendReadsBack(env, c, e);
          OneMoreTold(c.rows, TryAppend(env, c, e).value.rows, j, e);
        }
      case InCallerTransaction(events, _) =>
        AppendAllSucceeds(env, c, events);
        if AppendAll(env, c, events).Ok? { AppendAllTells(env, c, events, j); }
      case Clear =>
      case Import(rows, _) => assert c.rows == [] <==> j.origin == [] && j.events == [];
    }
  }

  /** In every run the log says, row by row and in order, exactly the events whose recording succeeded since
      the last clear or import: a transaction's all or none, nothing lost, altered, exchanged or added. */
  lemma {:induction false} LogTellsItsEvents(env: Env, c: Chain, j: Journal, steps: seq<ChainStep>)
    requires HeadOk(c) && Tells(c.rows, j)
    ensures Tells(Run(env, c, steps).rows, NoteAll(env, j, steps))
    decreases |steps|
  {
    if steps != [] {
      StepTells(env, c, j, steps[0]);
      StepKeepsHead(env, c, c.rows, steps[0]);
      LogTellsItsEvents(env, Apply(env, c, steps[0]), Note(env, j, steps[0]), steps[1..]);
    }
  }

  // ---- Binding -------------------------------------------------------------------

  /** The canonical bytes of a linked row. */
  function Body(env: Env, rows: seq<AuditRow>, i: nat): Bytes
    requires i < |rows| && LinkOk(env, rows, i)
  {
    env.canon(rows[i].json.value).value
  }

  /** What was hashed for a linked row. */
  function HashedBytes(env: Env, rows: seq<AuditRow>, i: nat): (bytes: Bytes)
    requires i < |rows| && LinkOk(env, rows, i)
    ensures env.sha(bytes) == rows[i].hash
  {
    LinkInput(PreviousHash(rows, i), Body(env, rows, i))
  }

  lemma FirstNul(p: string, x: Bytes)
    requires IsAscii(p) && (p == "" || IsHex64(p))
    ensures LinkInput(p, x)[|p|] == 0
    ensures forall i :: 0 <= i < |p| ==> LinkInput(p, x)[i] == p[i] as byte && LinkInput(p, x)[i] != 0
    ensures LinkInput(p, x)[|p| + 1..] == x
  {
    forall i | 0 <= i < |p| ensures LinkInput(p, x)[i] == p[i] as byte && LinkInput(p, x)[i] != 0 {
      assert IsHexDigit(p[i]);
    }
  }

  /** Hex text and canonical bytes can be split apart again: the first NUL ends the prefix. */
  lemma SplitIsUnique(p: string, x: Bytes, q: string, y: Bytes)
    requires IsAscii(p) && (p == "" || IsHex64(p))
    requires IsAscii(q) && (q == "" || IsHex64(q))
    requires LinkInput(p, x) == LinkInput(q, y)
    ensures p == q && x == y
  {
    FirstNul(p, x);
    FirstNul(q, y);
    assert |p| == |q|;
    forall i | 0 <= i < |p| ensures p[i] == q[i] {
      assert p[i] as byte == LinkInput(p, x)[i] == q[i] as byte;
    }
  }

  lemma LinkBinds(env: Env, a: seq<AuditRow>, i: nat, b: seq<AuditRow>, j: nat)
    requires Linked(env, a) && Linked(env, b) && i < |a| && j < |b|
    requires HashedBytes(env, a, i) == HashedBytes(env, b, j)
    ensures PreviousHash(a, i) == PreviousHash(b, j)
    ensures Body(env, a, i) == Body(env, b, j)
  {
    LinkedHashesAreDigests(env, a, i);
    LinkedHashesAreDigests(env, b, j);
    SplitIsUnique(PreviousHash(a, i), Body(env, a, i), PreviousHash(b, j), Body(env, b, j));
  }

  /** Walks two chains back from their tails to the first pair of hash inputs that differ. */
  function FindCollision(env: Env, a: seq<AuditRow>, b: seq<AuditRow>): (r: Option<(Bytes, Bytes)>)
    requires Linked(env, a) && Linked(env, b) && TailHash(a) == TailHash(b)
    ensures r.Some? ==> r.value.0 != r.value.1 && env.sha(r.value.0) == env.sha(r.value.1)
    decreases |a|
  {
    if a == [] || b == [] then
      None
    else
      var m, n := |a| - 1, |b| - 1;
      var x, y := HashedBytes(env, a, m), HashedBytes(env, b, n);
      if x != y then
        Some((x, y))
      else
        LinkBinds(env, a, m, b, n);
        LinkedPrefix(env, a);
        LinkedPrefix(env, b);
        FindCollision(env, a[..m], b[..n])
  }

  /** Link i of both chains has the same canonical event and the same hash. */
  predicate LinksAgree(env: Env, a: seq<AuditRow>, b: seq<AuditRow>, i: nat)
    requires i < |a| && i < |b| && Linked(env, a) && Linked(env, b)
  {
    Body(env, a, i) == Body(env, b, i) && a[i].hash == b[i].hash
  }

  lemma BodyOfPrefix(env: Env, rows: seq<AuditRow>, n: nat, i: nat)
    requires Linked(env, rows) && i < n <= |rows|
    ensures LinkOk(env, rows[..n], i) && Body(env, rows[..n], i) == Body(env, rows, i) && rows[..n][i] == rows[i]
  {
    assert LinkOk(env, rows, i);
  }

  lemma AgreementExtends(env: Env, a: seq<AuditRow>, b: seq<AuditRow>, n: nat)
    requires Linked(env, a) && Linked(env, b) && |a| == |b| == n + 1
    requires Linked(env, a[..n]) && Linked(env, b[..n]) && LinksAgree(env, a, b, n)
    requires forall i :: 0 <= i < n ==> LinksAgree(env, a[..n], b[..n], i)
    ensures forall i :: 0 <= i < |a| ==> LinksAgree(env, a, b, i)
  {
    forall i | 0 <= i < n ensures LinksAgree(env, a, b, i) {
      assert LinksAgree(env, a[..n], b[..n], i);
      BodyOfPrefix(env, a, n, i);
      BodyOfPrefix(env, b, n, i);
    }
  }

  /** Chain binding: two verified chains that share a final hash hold equal canonical events,
      position by position and hence in number, unless the walk above exhibits a collision. */
  lemma {:induction false} FinalHashBindsTheChain(env: Env, a: seq<AuditRow>, b: seq<AuditRow>)
    requires Linked(env, a) && Linked(env, b) && TailHash(a) == TailHash(b)
    requires FindCollision(env, a, b) == None
    ensures |a| == |b|
    ensures forall i :: 0 <= i < |a| ==> LinksAgree(env, a, b, i)
    decreases |a|
  {
    LinkedHashesAreDigests(env, a, |a|);
    LinkedHashesAreDigests(env, b, |b|);
    if a != [] && b != [] {
      var m, n := |a| - 1, |b| - 1;
      LinkBinds(env, a, m, b, n);
      LinkedPrefix(env, a);
      LinkedPrefix(env, b);
      FinalHashBindsTheChain(env, a[..m], b[..n]);
      AgreementExtends(env, a, b, m);
    }
  }
}
