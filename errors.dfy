/** The server's `ErrorHandler`: static functions that turn a store error
    and its context into an HTTP status and message, and that normalise a
    raw request body into the row the routes write. */
module ErrorHandling {
  import opened Common
  import opened Schema

  /** The `context` argument: which operation failed and which field the
      caller was writing. */
  datatype ErrorContext = ErrorContext(operation: Option<string>, field: Option<string>)

  const NoContext := ErrorContext(None, None)
  const MoveContext := ErrorContext(Some("move"), None)

  /** `{ status, message }`. */
  datatype ErrorInfo = ErrorInfo(status: int, message: string)

  const UniqueMarker := "UNIQUE constraint failed"
  const ForeignKeyMarker := "FOREIGN KEY constraint failed"

  predicate IsMove(ctx: ErrorContext) { ctx.operation == Some("move") }

  /** The first foreign-key column named by the message or by the context,
      in the order panel_id, breaker_id, room_id, subpanel_id. */
  function ForeignKeyMessage(message: string, ctx: ErrorContext): (r: string)
    ensures (Contains(message, "panel_id") || ctx.field == Some("panel_id")) ==>
      r == "Invalid panel_id - panel does not exist"
    ensures (!Contains(message, "panel_id") && ctx.field != Some("panel_id") &&
             (Contains(message, "breaker_id") || ctx.field == Some("breaker_id"))) ==>
      r == "Invalid breaker_id - breaker does not exist"
    ensures (!Contains(message, "panel_id") && ctx.field != Some("panel_id") &&
             !Contains(message, "breaker_id") && ctx.field != Some("breaker_id") &&
             (Contains(message, "room_id") || ctx.field == Some("room_id"))) ==>
      r == "Invalid room_id - room does not exist"
    ensures (!Contains(message, "panel_id") && !Contains(message, "breaker_id") && !Contains(message, "room_id") &&
             ctx.field == Some("subpanel_id")) ==>
      r == "Invalid subpanel_id - subpanel does not exist"
    ensures (!Contains(message, "panel_id") && !Contains(message, "breaker_id") && !Contains(message, "room_id") &&
             ctx.field != Some("panel_id") && ctx.field != Some("breaker_id") &&
             ctx.field != Some("room_id") && ctx.field != Some("subpanel_id")) ==>
      r == "Foreign key constraint violation"
  {
    SubpanelIdNamesPanelId(message);
    if Contains(message, "panel_id") || ctx.field == Some("panel_id") then "Invalid panel_id - panel does not exist"
    else if Contains(message, "breaker_id") || ctx.field == Some("breaker_id") then "Invalid breaker_id - breaker does not exist"
    else if Contains(message, "room_id") || ctx.field == Some("room_id") then "Invalid room_id - room does not exist"
    else if Contains(message, "subpanel_id") || ctx.field == Some("subpanel_id") then "Invalid subpanel_id - subpanel does not exist"
    else "Foreign key constraint violation"
  }

  /** `handleDatabaseError(error, context)`; `production` stands for
      `process.env.NODE_ENV === 'production'`. The message text is examined
      before the error code. */
  function HandleDatabaseError(e: StoreError, ctx: ErrorContext, production: bool): (r: ErrorInfo)
    ensures r.status == 409 || r.status == 400 || r.status == 500
    ensures Contains(e.message, UniqueMarker) ==> r.status == 409
    ensures !Contains(e.message, UniqueMarker) && Contains(e.message, ForeignKeyMarker) ==> r.status == 400
    ensures r.status == 500 <==>
      !Contains(e.message, UniqueMarker) && !Contains(e.message, ForeignKeyMarker) &&
      e.code != Some("SQLITE_CONSTRAINT_UNIQUE") && e.code != Some("SQLITE_CONSTRAINT_FOREIGNKEY") &&
      e.code != Some("SQLITE_CONSTRAINT")
    ensures r.status == 500 ==> r.message == (if production then "Database operation failed" else e.message)
    // UNIQUE failures: the table named first decides the text.
    ensures (Contains(e.message, UniqueMarker) && Contains(e.message, "panels.name")) ==>
      r.message == "A panel with this name already exists"
    ensures (Contains(e.message, UniqueMarker) && !Contains(e.message, "panels.name") &&
       Contains(e.message, "rooms.name")) ==> r.message == "A room with this name already exists"
    ensures (Contains(e.message, UniqueMarker) && !Contains(e.message, "panels.name") &&
       !Contains(e.message, "rooms.name") && Contains(e.message, "breakers")) ==>
      r.message == "A breaker already exists at this position and slot"
    ensures (Contains(e.message, UniqueMarker) && !Contains(e.message, "panels.name") &&
       !Contains(e.message, "rooms.name") && !Contains(e.message, "breakers")) ==>
      r.message == "A record with this information already exists"
    // FOREIGN KEY failures: one text for a move, otherwise the column.
    ensures (!Contains(e.message, UniqueMarker) && Contains(e.message, ForeignKeyMarker)) ==>
      r.message == (if IsMove(ctx) then "Invalid panel or breaker reference" else ForeignKeyMessage(e.message, ctx))
    // Neither marker in the text: the code decides.
    ensures (!Contains(e.message, UniqueMarker) && !Contains(e.message, ForeignKeyMarker) &&
       e.code == Some("SQLITE_CONSTRAINT_UNIQUE")) ==>
      r == ErrorInfo(409, if IsMove(ctx) then "Destination position is already occupied" else "Record already exists")
    ensures (!Contains(e.message, UniqueMarker) && !Contains(e.message, ForeignKeyMarker) &&
       (e.code == Some("SQLITE_CONSTRAINT_FOREIGNKEY") || e.code == Some("SQLITE_CONSTRAINT"))) ==>
      r == ErrorInfo(400, if IsMove(ctx) then "Invalid panel or breaker reference" else "Invalid reference")
  {
    if Contains(e.message, UniqueMarker) then
      if Contains(e.message, "panels.name") then ErrorInfo(409, "A panel with this name already exists")
      else if Contains(e.message, "rooms.name") then ErrorInfo(409, "A room with this name already exists")
      else if Contains(e.message, "breakers") then ErrorInfo(409, "A breaker already exists at this position and slot")
      else ErrorInfo(409, "A record with this information already exists")
    else if Contains(e.message, ForeignKeyMarker) then
      if IsMove(ctx) then ErrorInfo(400, "Invalid panel or breaker reference")
      else ErrorInfo(400, ForeignKeyMessage(e.message, ctx))
    else if e.code == Some("SQLITE_CONSTRAINT_UNIQUE") then
      ErrorInfo(409, if IsMove(ctx) then "Destination position is already occupied" else "Record already exists")
    else if e.code == Some("SQLITE_CONSTRAINT_FOREIGNKEY") || e.code == Some("SQLITE_CONSTRAINT") then
      ErrorInfo(400, if IsMove(ctx) then "Invalid panel or breaker reference" else "Invalid reference")
    else
      ErrorInfo(500, if production then "Database operation failed" else e.message)
  }

  /** During a move a foreign-key failure is always reported as an invalid
      reference, whatever column the message names. */
  lemma MoveForeignKeyIsInvalidReference(e: StoreError, production: bool)
    requires !Contains(e.message, UniqueMarker) && Contains(e.message, ForeignKeyMarker)
    ensures HandleDatabaseError(e, MoveContext, production) == ErrorInfo(400, "Invalid panel or breaker reference")
  {
  }

  /** A message that names a constraint decides the answer: the error code
      is not looked at. */
  lemma MessageTakesPrecedenceOverCode(e: StoreError, code: Option<string>, ctx: ErrorContext, production: bool)
    requires Contains(e.message, UniqueMarker) || Contains(e.message, ForeignKeyMarker)
    ensures HandleDatabaseError(e.(code := code), ctx, production) == HandleDatabaseError(e, ctx, production)
  {
  }

  /** Every error the store raises for a violated constraint carries the
      `SQLITE_CONSTRAINT` code, so none of them is answered with 500. */
  lemma ConstraintErrorsAreClientErrors(e: StoreError, ctx: ErrorContext, production: bool)
    requires e.code == Some(ConstraintCode)
    ensures HandleDatabaseError(e, ctx, production).status in {400, 409}
  {
  }

  /** A foreign-key message that names `subpanel_id` also contains
      `panel_id`, and `includes` tests `panel_id` first: such a failure is
      reported as an invalid panel, whatever the context field says. */
  lemma SubpanelColumnReadAsPanel(message: string, ctx: ErrorContext)
    requires Contains(message, "subpanel_id")
    ensures ForeignKeyMessage(message, ctx) == "Invalid panel_id - panel does not exist"
  {
    SubpanelIdNamesPanelId(message);
  }

  lemma SubpanelIdNamesPanelId(message: string)
    ensures Contains(message, "subpanel_id") ==> Contains(message, "panel_id")
  {
    if Contains(message, "subpanel_id") {
      assert "subpanel_id" == "sub" + "panel_id";
      ContainsDropFront(message, "sub", "panel_id");
    }
  }

  /** `handleValidationError(message)`. */
  function HandleValidationError(message: string): (r: ErrorInfo)
    ensures r.status == 400 && r.message == message
  {
    ErrorInfo(400, message)
  }

  /** `handleNotFoundError(resourceType)`. */
  function HandleNotFoundError(resourceType: string): (r: ErrorInfo)
    ensures r.status == 404 && r.message == resourceType + " not found"
  {
    ErrorInfo(404, resourceType + " not found")
  }

  // ---------------------------------------------------------------------------
  // Request-body normalisation
  // ---------------------------------------------------------------------------

  /** `label?.trim() || null`. */
  function TrimmedOrNull(s: Option<string>): (r: Option<string>)
    ensures r.Some? ==> r.value != "" && Trim(r.value) == r.value
    ensures s.None? ==> r.None?
    ensures s.Some? && Trim(s.value) != "" ==> r == Some(Trim(s.value))
    ensures s.Some? && Trim(s.value) == "" ==> r.None?
  {
    if s.None? then None
    else
      var t := Trim(s.value);
      TrimIdempotent(s.value);
      if t == "" then None else Some(t)
  }

  /** The fields of a breaker body the normalisation reads. */
  datatype RawBreaker = RawBreaker(
    panelId: Option<int>, position: Option<int>, labelText: Option<string>,
    amperage: Option<int>, monitor: Option<bool>, confirmed: Option<bool>,
    breakerType: Option<string>, slotPosition: Option<string>)

  /** `panel_id` and `position`, present only when creating. */
  datatype BreakerCreateFields = BreakerCreateFields(panelId: Option<int>, position: Option<int>)

  datatype ProcessedBreaker = ProcessedBreaker(
    labelText: Option<string>, amperage: Option<int>, monitor: bool, confirmed: bool,
    breakerType: string, slotPosition: string, create: Option<BreakerCreateFields>)

  /** `processBreakerData(body, operation)`. */
  function ProcessBreakerData(raw: RawBreaker, operation: string): (r: ProcessedBreaker)
    ensures r.breakerType != "" && r.slotPosition != ""
    ensures r.breakerType == TextOr(raw.breakerType, "single")
    ensures r.breakerType == "tandem" ==> r.slotPosition != "single"
    ensures r.breakerType != "tandem" ==> r.slotPosition == TextOr(raw.slotPosition, "single")
    ensures r.labelText.Some? ==> r.labelText.value != "" && Trim(r.labelText.value) == r.labelText.value
    ensures r.amperage.Some? ==> r.amperage.value != 0
    ensures r.create.Some? <==> operation == "create"
    // A tandem whose slot is missing or "single" takes slot A; any other
    // slot is kept as sent.
    ensures r.breakerType == "tandem" && TextOr(raw.slotPosition, "single") == "single" ==> r.slotPosition == "A"
    ensures !(r.breakerType == "tandem" && TextOr(raw.slotPosition, "single") == "single") ==>
      r.slotPosition == TextOr(raw.slotPosition, "single")
    ensures r.labelText == TrimmedOrNull(raw.labelText)
    ensures TruthyInt(raw.amperage) ==> r.amperage == raw.amperage
    ensures !TruthyInt(raw.amperage) ==> r.amperage.None?
    ensures r.monitor <==> raw.monitor == Some(true)
    ensures r.confirmed <==> raw.confirmed == Some(true)
    ensures operation == "create" ==> r.create == Some(BreakerCreateFields(raw.panelId, raw.position))
  {
    var slot := TextOr(raw.slotPosition, "single");
    var kind := TextOr(raw.breakerType, "single");
    ProcessedBreaker(
      TrimmedOrNull(raw.labelText), IntOrNull(raw.amperage),
      raw.monitor == Some(true), raw.confirmed == Some(true),
      kind, if kind == "tandem" && slot == "single" then "A" else slot,
      if operation == "create" then Some(BreakerCreateFields(raw.panelId, raw.position)) else None)
  }

  /** The body a client would send to store `p` again. */
  function ResubmitBreaker(p: ProcessedBreaker): RawBreaker {
    RawBreaker(
      if p.create.Some? then p.create.value.panelId else None,
      if p.create.Some? then p.create.value.position else None,
      p.labelText, p.amperage, Some(p.monitor), Some(p.confirmed),
      Some(p.breakerType), Some(p.slotPosition))
  }

  /** Normalising an already normalised breaker changes nothing. */
  lemma ProcessBreakerDataIdempotent(raw: RawBreaker, operation: string)
    ensures ProcessBreakerData(ResubmitBreaker(ProcessBreakerData(raw, operation)), operation)
         == ProcessBreakerData(raw, operation)
  {
    var p := ProcessBreakerData(raw, operation);
    if p.labelText.Some? {
      assert TrimmedOrNull(p.labelText) == p.labelText;
    }
  }

  /** The fields of a circuit body the normalisation reads. */
  datatype RawCircuit = RawCircuit(
    breakerId: Option<int>, roomId: Option<int>, circuitType: Option<string>,
    notes: Option<string>, subpanelId: Option<int>)

  /** `breaker_id`, present only when creating. */
  datatype CircuitCreateFields = CircuitCreateFields(breakerId: Option<int>)

  datatype ProcessedCircuit = ProcessedCircuit(
    roomId: Option<int>, circuitType: Option<string>, notes: Option<string>,
    subpanelId: Option<int>, create: Option<CircuitCreateFields>)

  /** `processCircuitData(body, operation)`. */
  function ProcessCircuitData(raw: RawCircuit, operation: string): (r: ProcessedCircuit)
    ensures r.roomId.Some? ==> r.roomId.value != 0
    ensures r.subpanelId.Some? ==> r.subpanelId.value != 0
    ensures r.circuitType.Some? ==> r.circuitType.value != ""
    ensures r.notes.Some? ==> r.notes.value != "" && Trim(r.notes.value) == r.notes.value
    ensures r.create.Some? <==> operation == "create"
    ensures TruthyInt(raw.roomId) ==> r.roomId == raw.roomId
    ensures !TruthyInt(raw.roomId) ==> r.roomId.None?
    ensures TruthyInt(raw.subpanelId) ==> r.subpanelId == raw.subpanelId
    ensures !TruthyInt(raw.subpanelId) ==> r.subpanelId.None?
    ensures TruthyText(raw.circuitType) ==> r.circuitType == raw.circuitType
    ensures !TruthyText(raw.circuitType) ==> r.circuitType.None?
    ensures r.notes == TrimmedOrNull(raw.notes)
    ensures operation == "create" ==> r.create == Some(CircuitCreateFields(raw.breakerId))
  {
    ProcessedCircuit(
      IntOrNull(raw.roomId),
      if TruthyText(raw.circuitType) then raw.circuitType else None,
      TrimmedOrNull(raw.notes),
      IntOrNull(raw.subpanelId),
      if operation == "create" then Some(CircuitCreateFields(raw.breakerId)) else None)
  }

  function ResubmitCircuit(p: ProcessedCircuit): RawCircuit {
    RawCircuit(if p.create.Some? then p.create.value.breakerId else None,
               p.roomId, p.circuitType, p.notes, p.subpanelId)
  }

  /** Normalising an already normalised circuit changes nothing. */
  lemma ProcessCircuitDataIdempotent(raw: RawCircuit, operation: string)
    ensures ProcessCircuitData(ResubmitCircuit(ProcessCircuitData(raw, operation)), operation)
         == ProcessCircuitData(raw, operation)
  {
    var p := ProcessCircuitData(raw, operation);
    if p.notes.Some? {
      assert TrimmedOrNull(p.notes) == p.notes;
    }
  }
}
