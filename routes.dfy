/** The server routes of the model: `POST /breakers/move`, which swaps or
    relocates a breaker's circuits inside one transaction, and the lookup of
    the breakers at a panel position. `Move` states the outcome of a move
    on the tables; `MoveBreaker` issues the statements one by one against a
    `DatabaseService` and is proved to reach that outcome. */
module Routes {
  import opened Common
  import opened Schema
  import opened Store
  import opened ErrorHandling

  /** The body of `POST /breakers/move`; the source's slot and position are
      sent by the client but not read by the handler. */
  datatype MoveRequest = MoveRequest(
    sourceBreakerId: Option<int>, destinationPanelId: Option<int>,
    destinationPosition: Option<int>, destinationSlot: Option<string>)

  /** The status and the message (or error text) of the JSON answer. */
  datatype Response = Response(status: int, message: string)

  const MovedOk := Response(200, "Breaker moved successfully")
  const MissingFields := Response(400, "Missing required fields")
  const InvalidReference := Response(400, "Invalid panel or breaker reference")

  /** `ErrorHandler.sendError(res, errorInfo)`. */
  function Send(info: ErrorInfo): Response {
    Response(info.status, info.message)
  }

  predicate HasRequiredFields(req: MoveRequest) {
    TruthyInt(req.sourceBreakerId) && TruthyInt(req.destinationPanelId) && TruthyInt(req.destinationPosition)
  }

  /** `destinationSlot || 'single'`. */
  function DestinationSlot(req: MoveRequest): string {
    TextOr(req.destinationSlot, "single")
  }

  // ---------------------------------------------------------------------------
  // The outcome of a move, on the tables
  // ---------------------------------------------------------------------------

  /** The breaker a circuit on `b` ends up on when `src` and `dst` trade
      their circuits. */
  function SwappedId(b: int, src: int, dst: int): int {
    if b == src then dst else if b == dst then src else b
  }

  function SwapCircuits(circuits: map<int, Circuit>, src: int, dst: int): map<int, Circuit> {
    map c | c in circuits :: circuits[c].(breakerId := SwappedId(circuits[c].breakerId, src, dst))
  }

  function Retarget(circuits: map<int, Circuit>, from: int, to: int): map<int, Circuit> {
    map c | c in circuits :: if circuits[c].breakerId == from then circuits[c].(breakerId := to) else circuits[c]
  }

  /** The breaker the move creates at an empty destination: no label, the
      rest copied from the source. */
  function RelocatedRow(source: Breaker, panelId: int, position: int, slotText: string): BreakerInsert {
    BreakerInsert(panelId, position, slotText, Some(""), source.amperage, source.critical,
                  source.monitor, source.confirmed, BreakerTypeText(source.breakerType))
  }

  /** The source row goes once no circuit references it. */
  function DropIfEmpty(t: Tables, id: int): Tables {
    if CircuitsOf(t.circuits, id) == {} then DeleteBreaker(t, id) else t
  }

  /** The transaction's callback, from the tables at BEGIN. */
  ghost function MoveInTables(t: Tables, srcId: int, panelId: int, position: int, slotText: string): Result<Tables>
    requires srcId in t.breakers
  {
    match BreakerAt(t, panelId, position, slotText)
    case Some(dst) =>
      Ok(DropIfEmpty(t.(circuits := SwapCircuits(t.circuits, srcId, dst)), srcId))
    case None =>
      match InsertBreaker(t, RelocatedRow(t.breakers[srcId], panelId, position, slotText))
      case Err(e) => Err(e)
      case Ok(t1) => Ok(DropIfEmpty(t1.(circuits := Retarget(t1.circuits, srcId, t.nextBreakerId)), srcId))
  }

  /** The answer to a move and the tables after it; `ready` is whether the
      service is initialized, `production` whether raw errors are hidden. */
  ghost function Move(t: Tables, ready: bool, req: MoveRequest, production: bool): (Response, Tables) {
    if !HasRequiredFields(req) then (MissingFields, t)
    else if !ready then (Send(HandleDatabaseError(NotInitialized, MoveContext, production)), t)
    else if req.sourceBreakerId.value !in t.breakers then (Send(HandleNotFoundError("Source breaker")), t)
    else
      match MoveInTables(t, req.sourceBreakerId.value, req.destinationPanelId.value,
                         req.destinationPosition.value, DestinationSlot(req))
      case Err(e) => (Send(HandleDatabaseError(e, MoveContext, production)), t)
      case Ok(t2) => (MovedOk, t2)
  }

  // ---------------------------------------------------------------------------
  // The handler, statement by statement
  // ---------------------------------------------------------------------------

  /** Running the UPDATE loop over the source's circuits and then over the
      destination's (both read before either loop) trades the two sets. */
  lemma SwapByTwoPasses(circuits: map<int, Circuit>, fromSrc: seq<int>, fromDst: seq<int>, src: int, dst: int)
    requires forall c :: c in fromSrc <==> c in CircuitsOf(circuits, src)
    requires forall c :: c in fromDst <==> c in CircuitsOf(circuits, dst)
    ensures AssignCircuits(AssignCircuits(circuits, fromSrc, dst), fromDst, src) == SwapCircuits(circuits, src, dst)
  {
    var r := AssignCircuits(AssignCircuits(circuits, fromSrc, dst), fromDst, src);
    forall c | c in circuits
      ensures r[c] == SwapCircuits(circuits, src, dst)[c]
    {
      assert c in fromSrc <==> circuits[c].breakerId == src;
      assert c in fromDst <==> circuits[c].breakerId == dst;
    }
  }

  /** One UPDATE loop over the source's circuits retargets all of them. */
  lemma RetargetByPass(circuits: map<int, Circuit>, fromSrc: seq<int>, src: int, to: int)
    requires forall c :: c in fromSrc <==> c in CircuitsOf(circuits, src)
    ensures AssignCircuits(circuits, fromSrc, to) == Retarget(circuits, src, to)
  {
    var r := AssignCircuits(circuits, fromSrc, to);
    forall c | c in circuits
      ensures r[c] == Retarget(circuits, src, to)[c]
    {
      assert c in fromSrc <==> circuits[c].breakerId == src;
    }
  }

  /** Occupied destination: the two UPDATE loops, each over the ids read
      before either loop ran. */
  method SwapInTransaction(db: DatabaseService, srcId: int, dstId: int)
    requires db.Valid() && db.Ready() && srcId in db.tables.breakers && dstId in db.tables.breakers
    modifies db
    ensures db.Valid() && db.Ready() && db.snapshot == old(db.snapshot)
    ensures db.hasConnection == old(db.hasConnection) && db.isInitialized == old(db.isInitialized)
    ensures db.tables == old(db.tables).(circuits := SwapCircuits(old(db.tables).circuits, srcId, dstId))
  {
    ghost var t := db.tables;
    var sourceCircuits := db.CircuitIdsOf(srcId);
    var destinationCircuits := db.CircuitIdsOf(dstId);
    db.ReassignCircuits(sourceCircuits.value, dstId);
    db.ReassignCircuits(destinationCircuits.value, srcId);
    SwapByTwoPasses(t.circuits, sourceCircuits.value, destinationCircuits.value, srcId, dstId);
  }

  /** Empty destination: INSERT the new breaker, then one UPDATE loop over
      the source's circuits. A refused INSERT changes nothing. */
  method RelocateInTransaction(db: DatabaseService, srcId: int, source: Breaker, panelId: int, position: int, slotText: string)
    returns (r: Result<()>)
    requires db.Valid() && db.Ready()
    requires srcId in db.tables.breakers && db.tables.breakers[srcId] == source
    modifies db
    ensures db.Valid() && db.Ready() && db.snapshot == old(db.snapshot)
    ensures db.hasConnection == old(db.hasConnection) && db.isInitialized == old(db.isInitialized)
    ensures var ins := InsertBreaker(old(db.tables), RelocatedRow(source, panelId, position, slotText));
      (r.Err? <==> ins.Err?) &&
      (r.Err? ==> r.error == ins.error && db.tables == old(db.tables)) &&
      (r.Ok? ==> db.tables == ins.value.(circuits := Retarget(ins.value.circuits, srcId, old(db.tables).nextBreakerId)))
  {
    ghost var t := db.tables;
    var sourceCircuits := db.CircuitIdsOf(srcId);
    var created := db.InsertBreaker(RelocatedRow(source, panelId, position, slotText));
    if created.Err? {
      return Err(created.error);
    }
    db.ReassignCircuits(sourceCircuits.value, created.value);
    RetargetByPass(t.circuits, sourceCircuits.value, srcId, created.value);
    return Ok(());
  }

  /** Re-read the source's circuits and DELETE the row when none is left. */
  method DropSourceIfEmpty(db: DatabaseService, srcId: int)
    requires db.Valid() && db.Ready()
    modifies db
    ensures db.Valid() && db.Ready() && db.snapshot == old(db.snapshot)
    ensures db.hasConnection == old(db.hasConnection) && db.isInitialized == old(db.isInitialized)
    ensures db.tables == DropIfEmpty(old(db.tables), srcId)
  {
    var remaining := db.CircuitIdsOf(srcId);
    if |remaining.value| == 0 {
      forall c | c in db.tables.circuits
        ensures c !in CircuitsOf(db.tables.circuits, srcId)
      {
        assert c !in remaining.value;
      }
      var _ := db.DeleteBreaker(srcId);
    } else {
      assert remaining.value[0] in remaining.value;
    }
  }

  /** The callback given to `transaction`: the destination lookup, the swap
      or the relocation, then the removal of an empty source. */
  method MoveInTransaction(db: DatabaseService, srcId: int, source: Breaker, panelId: int, position: int, slotText: string)
    returns (r: Result<()>)
    requires db.Valid() && db.Ready()
    requires srcId in db.tables.breakers && db.tables.breakers[srcId] == source
    modifies db
    ensures db.Valid() && db.Ready() && db.snapshot == old(db.snapshot)
    ensures db.hasConnection == old(db.hasConnection) && db.isInitialized == old(db.isInitialized)
    ensures r.Ok? <==> MoveInTables(old(db.tables), srcId, panelId, position, slotText).Ok?
    ensures r.Ok? ==> db.tables == MoveInTables(old(db.tables), srcId, panelId, position, slotText).value
    ensures r.Err? ==> r.error == MoveInTables(old(db.tables), srcId, panelId, position, slotText).error
  {
    ghost var t := db.tables;
    var destination := db.FindBreakerAt(panelId, position, slotText);
    ghost var moved: Tables;
    if destination.value.Some? {
      var dst := destination.value.value;
      BreakerAtUnique(t, panelId, position, slotText, dst);
      SwapInTransaction(db, srcId, dst);
      moved := t.(circuits := SwapCircuits(t.circuits, srcId, dst));
    } else {
      assert BreakerAt(t, panelId, position, slotText).None?;
      r := RelocateInTransaction(db, srcId, source, panelId, position, slotText);
      if r.Err? {
        return;
      }
      var t1 := InsertBreaker(t, RelocatedRow(source, panelId, position, slotText)).value;
      moved := t1.(circuits := Retarget(t1.circuits, srcId, t.nextBreakerId));
    }
    assert MoveInTables(t, srcId, panelId, position, slotText) == Ok(DropIfEmpty(moved, srcId));
    assert db.tables == moved;
    DropSourceIfEmpty(db, srcId);
    return Ok(());
  }

  /** `POST /breakers/move`: validation, the source lookup outside the
      transaction, then BEGIN, the callback, and COMMIT or ROLLBACK. */
  method MoveBreaker(db: DatabaseService, req: MoveRequest, production: bool) returns (resp: Response)
    requires db.Valid() && db.snapshot == None
    modifies db
    ensures db.Valid() && db.snapshot == None
    ensures db.hasConnection == old(db.hasConnection) && db.isInitialized == old(db.isInitialized)
    ensures (resp, db.tables) == Move(old(db.tables), old(db.Ready()), req, production)
  {
    if !TruthyInt(req.sourceBreakerId) || !TruthyInt(req.destinationPanelId) || !TruthyInt(req.destinationPosition) {
      return MissingFields;
    }
    var srcId := req.sourceBreakerId.value;
    var found := db.GetBreaker(srcId);
    if found.Err? {
      return Send(HandleDatabaseError(found.error, MoveContext, production));
    }
    if found.value.None? {
      return Send(HandleNotFoundError("Source breaker"));
    }
    var _ := db.Begin();
    var outcome := MoveInTransaction(db, srcId, found.value.value, req.destinationPanelId.value,
                                     req.destinationPosition.value, DestinationSlot(req));
    if outcome.Ok? {
      var _ := db.Commit();
      return MovedOk;
    }
    var _ := db.Rollback();
    return Send(HandleDatabaseError(outcome.error, MoveContext, production));
  }

  // ---------------------------------------------------------------------------
  // What a move does
  // ---------------------------------------------------------------------------

  /** A move answers 200 exactly when its callback succeeded; any other
      answer leaves every table as it was. */
  lemma MoveFailsAtomically(t: Tables, ready: bool, req: MoveRequest, production: bool)
    ensures Move(t, ready, req, production).0.status == 200 <==>
      HasRequiredFields(req) && ready && req.sourceBreakerId.value in t.breakers &&
      MoveInTables(t, req.sourceBreakerId.value, req.destinationPanelId.value,
                   req.destinationPosition.value, DestinationSlot(req)).Ok?
    ensures Move(t, ready, req, production).0.status != 200 ==> Move(t, ready, req, production).1 == t
  {
  }

  /** A request without a truthy source, destination panel or destination
      position is refused before the store is touched. */
  lemma MissingFieldsRefused(t: Tables, ready: bool, req: MoveRequest, production: bool)
    requires !HasRequiredFields(req)
    ensures Move(t, ready, req, production) == (MissingFields, t)
  {
  }

  /** An unknown source breaker is answered 404 before the transaction. */
  lemma UnknownSourceRefused(t: Tables, req: MoveRequest, production: bool)
    requires HasRequiredFields(req) && req.sourceBreakerId.value !in t.breakers
    ensures Move(t, true, req, production) == (Response(404, "Source breaker not found"), t)
  {
    assert "Source breaker" + " not found" == "Source breaker not found";
  }

  lemma SwapKeepsValid(t: Tables, src: int, dst: int)
    requires Valid(t) && src in t.breakers && dst in t.breakers
    ensures Valid(t.(circuits := SwapCircuits(t.circuits, src, dst)))
  {
    var r := t.(circuits := SwapCircuits(t.circuits, src, dst));
    assert CircuitRefsOk(r);
  }

  lemma RetargetKeepsValid(t: Tables, src: int, to: int)
    requires Valid(t) && to in t.breakers
    ensures Valid(t.(circuits := Retarget(t.circuits, src, to)))
  {
    var r := t.(circuits := Retarget(t.circuits, src, to));
    assert CircuitRefsOk(r);
  }

  /** Whatever its answer, a move keeps every constraint of the schema: no
      two breakers share an address and no circuit points at a deleted
      breaker. */
  lemma MoveKeepsValid(t: Tables, ready: bool, req: MoveRequest, production: bool)
    requires Valid(t)
    ensures Valid(Move(t, ready, req, production).1)
  {
    if HasRequiredFields(req) && ready && req.sourceBreakerId.value in t.breakers {
      var src, panelId, position, slotText :=
        req.sourceBreakerId.value, req.destinationPanelId.value, req.destinationPosition.value, DestinationSlot(req);
      match BreakerAt(t, panelId, position, slotText)
      case Some(dst) =>
        SwapKeepsValid(t, src, dst);
        DeleteBreakerKeepsValid(t.(circuits := SwapCircuits(t.circuits, src, dst)), src);
      case None =>
        var row := RelocatedRow(t.breakers[src], panelId, position, slotText);
        if InsertBreaker(t, row).Ok? {
          var t1 := InsertBreaker(t, row).value;
          InsertBreakerKeepsValid(t, row);
          RetargetKeepsValid(t1, src, t.nextBreakerId);
          DeleteBreakerKeepsValid(t1.(circuits := Retarget(t1.circuits, src, t.nextBreakerId)), src);
        }
    }
  }

  /** Occupied destination: the two breakers trade their circuits, keep
      their rows, no breaker is created, and the source row goes exactly
      when the destination had no circuits. Other circuits keep their
      rows. */
  lemma SwapOutcome(t: Tables, req: MoveRequest, production: bool, dst: int)
    requires Valid(t) && HasRequiredFields(req) && req.sourceBreakerId.value in t.breakers
    requires dst in t.breakers
    requires AtAddress(t.breakers[dst], req.destinationPanelId.value, req.destinationPosition.value, DestinationSlot(req))
    ensures var (resp, t2) := Move(t, true, req, production);
      var src := req.sourceBreakerId.value;
      resp == MovedOk &&
      t2.panels == t.panels && t2.rooms == t.rooms && t2.nextBreakerId == t.nextBreakerId &&
      t2.circuits.Keys == t.circuits.Keys &&
      (forall c :: c in t.circuits ==>
        t2.circuits[c] == t.circuits[c].(breakerId := SwappedId(t.circuits[c].breakerId, src, dst))) &&
      (forall b :: b in t2.breakers ==> b in t.breakers && t2.breakers[b] == t.breakers[b]) &&
      (forall b :: b in t.breakers && b != src ==> b in t2.breakers) &&
      (src in t2.breakers <==> CircuitsOf(t.circuits, dst) != {})
  {
    var src := req.sourceBreakerId.value;
    BreakerAtUnique(t, req.destinationPanelId.value, req.destinationPosition.value, DestinationSlot(req), dst);
    var swapped := t.(circuits := SwapCircuits(t.circuits, src, dst));
    SwapTradesCircuits(t.circuits, src, dst);
    var t2 := DropIfEmpty(swapped, src);
    assert MoveInTables(t, src, req.destinationPanelId.value, req.destinationPosition.value, DestinationSlot(req))
        == Ok(t2);
    assert t2.circuits == swapped.circuits by {
      if CircuitsOf(swapped.circuits, src) == {} {
        forall c | c in swapped.circuits
          ensures swapped.circuits[c].breakerId != src
        {
          assert c !in CircuitsOf(swapped.circuits, src);
        }
      }
    }
  }

  /** After the trade, the circuits on the source are those that were on
      the destination. */
  lemma SwapTradesCircuits(circuits: map<int, Circuit>, src: int, dst: int)
    ensures CircuitsOf(SwapCircuits(circuits, src, dst), src) == CircuitsOf(circuits, dst)
  {
    var swapped := SwapCircuits(circuits, src, dst);
    forall c
      ensures c in CircuitsOf(swapped, src) <==> c in CircuitsOf(circuits, dst)
    {
      if c in circuits {
        assert swapped[c].breakerId == SwappedId(circuits[c].breakerId, src, dst);
      }
    }
  }

  /** Empty destination with a row the schema accepts: one new breaker at
      the destination address, unlabelled and with the source's other
      attributes; every source circuit moves to it and the source row is
      deleted. Other circuits keep their rows. */
  lemma RelocateOutcome(t: Tables, req: MoveRequest, production: bool)
    requires Valid(t) && HasRequiredFields(req) && req.sourceBreakerId.value in t.breakers
    requires req.destinationPanelId.value in t.panels && req.destinationPosition.value > 0
    requires ParseSlot(DestinationSlot(req)).Some?
    requires forall b :: b in t.breakers ==>
      !AtAddress(t.breakers[b], req.destinationPanelId.value, req.destinationPosition.value, DestinationSlot(req))
    ensures var (resp, t2) := Move(t, true, req, production);
      var src := req.sourceBreakerId.value;
      var s := t.breakers[src];
      var n := t.nextBreakerId;
      resp == MovedOk &&
      t2.breakers == (t.breakers - {src})[n := Breaker(
        req.destinationPanelId.value, req.destinationPosition.value, ParseSlot(DestinationSlot(req)).value,
        Some(""), s.amperage, s.critical, s.monitor, s.confirmed, s.breakerType)] &&
      t2.nextBreakerId == n + 1 && t2.panels == t.panels && t2.rooms == t.rooms &&
      t2.circuits.Keys == t.circuits.Keys &&
      (forall c :: c in t.circuits ==>
        t2.circuits[c] == if t.circuits[c].breakerId == src then t.circuits[c].(breakerId := n) else t.circuits[c]) &&
      BreakerAt(t2, req.destinationPanelId.value, req.destinationPosition.value, DestinationSlot(req)) == Some(n)
  {
    var src := req.sourceBreakerId.value;
    var panelId, position, slotText := req.destinationPanelId.value, req.destinationPosition.value, DestinationSlot(req);
    var row := RelocatedRow(t.breakers[src], panelId, position, slotText);
    RelocatedRowAccepted(t, src, panelId, position, slotText);
    var t1 := InsertBreaker(t, row).value;
    var n := t.nextBreakerId;
    var t2 := t1.(circuits := Retarget(t1.circuits, src, n));
    RetargetEmpties(t1.circuits, src, n);
    var t3 := DeleteBreaker(t2, src);
    assert BreakerAt(t, panelId, position, slotText).None?;
    assert MoveInTables(t, src, panelId, position, slotText) == Ok(t3);
    RelocatedIsFound(t, src, panelId, position, slotText);
  }

  /** The new row is the one at the destination address after the move. */
  lemma RelocatedIsFound(t: Tables, src: int, panelId: int, position: int, slotText: string)
    requires Valid(t) && src in t.breakers && panelId in t.panels && position > 0
    requires ParseSlot(slotText).Some?
    requires forall b :: b in t.breakers ==> !AtAddress(t.breakers[b], panelId, position, slotText)
    ensures InsertBreaker(t, RelocatedRow(t.breakers[src], panelId, position, slotText)).Ok?
    ensures var t1 := InsertBreaker(t, RelocatedRow(t.breakers[src], panelId, position, slotText)).value;
      BreakerAt(DeleteBreaker(t1.(circuits := Retarget(t1.circuits, src, t.nextBreakerId)), src),
                panelId, position, slotText) == Some(t.nextBreakerId)
  {
    var row := RelocatedRow(t.breakers[src], panelId, position, slotText);
    RelocatedRowAccepted(t, src, panelId, position, slotText);
    var t1 := InsertBreaker(t, row).value;
    var n := t.nextBreakerId;
    var t2 := t1.(circuits := Retarget(t1.circuits, src, n));
    RetargetEmpties(t1.circuits, src, n);
    var t3 := DeleteBreaker(t2, src);
    InsertBreakerKeepsValid(t, row);
    RetargetKeepsValid(t1, src, n);
    DeleteBreakerKeepsValid(t2, src);
    BreakerAtUnique(t3, panelId, position, slotText, n);
  }

  /** The schema accepts the relocated row at a free, well-formed address
      of an existing panel. */
  lemma RelocatedRowAccepted(t: Tables, src: int, panelId: int, position: int, slotText: string)
    requires Valid(t) && src in t.breakers && panelId in t.panels && position > 0
    requires ParseSlot(slotText).Some?
    requires forall b :: b in t.breakers ==> !AtAddress(t.breakers[b], panelId, position, slotText)
    ensures InsertBreaker(t, RelocatedRow(t.breakers[src], panelId, position, slotText)).Ok?
  {
    var row := RelocatedRow(t.breakers[src], panelId, position, slotText);
    var slot := ParseSlot(slotText).value;
    assert ParseBreakerType(row.typeText) == Some(t.breakers[src].breakerType);
    forall b | b in t.breakers
      ensures AddressOf(t.breakers[b]) != Address(panelId, position, slot)
    {
      assert !AtAddress(t.breakers[b], panelId, position, slotText);
    }
  }

  /** Retargeting to another breaker leaves none on the old one. */
  lemma RetargetEmpties(circuits: map<int, Circuit>, from: int, to: int)
    requires from != to
    ensures CircuitsOf(Retarget(circuits, from, to), from) == {}
  {
    var r := Retarget(circuits, from, to);
    forall c | c in r
      ensures r[c].breakerId != from
    {
    }
  }

  /** Every failure inside the transaction is a constraint error, and for a
      move all of them are reported as an invalid reference. */
  lemma MoveErrorIsInvalidReference(t: Tables, srcId: int, panelId: int, position: int, slotText: string, production: bool)
    requires srcId in t.breakers
    requires MoveInTables(t, srcId, panelId, position, slotText).Err?
    ensures Send(HandleDatabaseError(MoveInTables(t, srcId, panelId, position, slotText).error, MoveContext, production))
         == InvalidReference
  {
    var e := MoveInTables(t, srcId, panelId, position, slotText).error;
    assert BreakerAt(t, panelId, position, slotText).None?;
    RelocateErrorIsConstraint(t, t.breakers[srcId], panelId, position, slotText);
    ConstraintErrorInMove(e, production);
  }

  /** A constraint error that is not a UNIQUE failure is an invalid
      reference for a move, whether or not it names a foreign key. */
  lemma ConstraintErrorInMove(e: StoreError, production: bool)
    requires e.code == Some(ConstraintCode) && !Contains(e.message, UniqueMarker)
    ensures Send(HandleDatabaseError(e, MoveContext, production)) == InvalidReference
  {
  }

  /** The INSERT of a relocation at a free address can only fail a CHECK
      clause or the panel's foreign key. */
  lemma RelocateErrorIsConstraint(t: Tables, source: Breaker, panelId: int, position: int, slotText: string)
    requires forall b :: b in t.breakers ==> !AtAddress(t.breakers[b], panelId, position, slotText)
    requires InsertBreaker(t, RelocatedRow(source, panelId, position, slotText)).Err?
    ensures var e := InsertBreaker(t, RelocatedRow(source, panelId, position, slotText)).error;
      e.code == Some(ConstraintCode) && !Contains(e.message, UniqueMarker)
  {
    var row := RelocatedRow(source, panelId, position, slotText);
    var e := InsertBreaker(t, row).error;
    if ParseSlot(slotText).Some? {
      forall b | b in t.breakers
        ensures AddressOf(t.breakers[b]) != Address(panelId, position, ParseSlot(slotText).value)
      {
        assert !AtAddress(t.breakers[b], panelId, position, slotText);
      }
    }
    if row.position <= 0 || ParseSlot(row.slotText).None? || !AmperageOk(row.amperage) {
      CheckClauseRefusal(t, row);
    } else {
      assert ParseBreakerType(row.typeText) == Some(source.breakerType);
      assert e == ForeignKeyFailed;
      assert 'U' !in ConstraintPrefix && 'U' !in "FOREIGN KEY constraint failed";
      NoUniqueMarker(ForeignKeyFailed.message);
    }
  }

  /** The CHECK clauses a relocated row can fail. */
  lemma CheckClauseRefusal(t: Tables, row: BreakerInsert)
    requires row.position <= 0 || ParseSlot(row.slotText).None? || !AmperageOk(row.amperage)
    ensures InsertBreaker(t, row).Err?
    ensures var e := InsertBreaker(t, row).error;
      e.code == Some(ConstraintCode) && !Contains(e.message, UniqueMarker)
  {
    var e := InsertBreaker(t, row).error;
    if row.position <= 0 {
      assert e == CheckFailed(PositionCheck);
      PositionCheckNotUnique();
    } else if ParseSlot(row.slotText).None? {
      assert e == CheckFailed(SlotCheck);
      SlotCheckNotUnique();
    } else {
      assert e == CheckFailed(AmperageCheck);
      AmperageCheckNotUnique();
    }
  }

  const PositionCheck := "position > 0"
  const SlotCheck := "slot_position IN ('single', 'A', 'B')"
  const AmperageCheck := "amperage > 0 AND amperage <= 200"

  lemma PositionCheckNotUnique()
    ensures !Contains(CheckFailed(PositionCheck).message, UniqueMarker)
  {
    CheckFailedIsNotUnique(PositionCheck);
  }

  lemma SlotCheckNotUnique()
    ensures !Contains(CheckFailed(SlotCheck).message, UniqueMarker)
  {
    CheckFailedIsNotUnique(SlotCheck);
  }

  lemma AmperageCheckNotUnique()
    ensures !Contains(CheckFailed(AmperageCheck).message, UniqueMarker)
  {
    CheckFailedIsNotUnique(AmperageCheck);
  }

  /** A text without a capital U cannot name a UNIQUE failure. */
  lemma NoUniqueMarker(message: string)
    requires 'U' !in message
    ensures !Contains(message, UniqueMarker)
  {
    if Contains(message, UniqueMarker) {
      ContainsHead(message, UniqueMarker);
    }
  }

  lemma CheckFailedIsNotUnique(expr: string)
    requires 'U' !in expr
    ensures !Contains(CheckFailed(expr).message, UniqueMarker)
  {
    assert 'U' !in ConstraintPrefix && 'U' !in "CHECK constraint failed: ";
    NoUniqueMarker(CheckFailed(expr).message);
  }

  /** An empty destination the schema refuses (no such panel, a position
      below 1, an unknown slot) fails the move with 400 and changes
      nothing. */
  lemma RefusedDestination(t: Tables, req: MoveRequest, production: bool)
    requires Valid(t) && HasRequiredFields(req) && req.sourceBreakerId.value in t.breakers
    requires req.destinationPanelId.value !in t.panels || req.destinationPosition.value <= 0 ||
             ParseSlot(DestinationSlot(req)).None?
    ensures Move(t, true, req, production) == (InvalidReference, t)
  {
    var src := req.sourceBreakerId.value;
    var panelId, position, slotText := req.destinationPanelId.value, req.destinationPosition.value, DestinationSlot(req);
    assert BreakerAt(t, panelId, position, slotText).None? by {
      if BreakerAt(t, panelId, position, slotText).Some? {
        var b := BreakerAt(t, panelId, position, slotText).value;
        assert ParseSlot(slotText) == Some(t.breakers[b].slot);
      }
    }
    MoveErrorIsInvalidReference(t, src, panelId, position, slotText, production);
  }

  /** Moving a breaker onto its own address changes no circuit, and the
      row goes only if it had no circuits. */
  lemma MoveOntoItself(t: Tables, req: MoveRequest, production: bool)
    requires Valid(t) && HasRequiredFields(req) && req.sourceBreakerId.value in t.breakers
    requires AtAddress(t.breakers[req.sourceBreakerId.value], req.destinationPanelId.value,
                       req.destinationPosition.value, DestinationSlot(req))
    ensures var (resp, t2) := Move(t, true, req, production);
      var src := req.sourceBreakerId.value;
      resp == MovedOk && t2.circuits == t.circuits &&
      t2.breakers == if CircuitsOf(t.circuits, src) == {} then t.breakers - {src} else t.breakers
  {
    var src := req.sourceBreakerId.value;
    SwapOutcome(t, req, production, src);
    var t2 := Move(t, true, req, production).1;
    assert t2.circuits == t.circuits by {
      forall c | c in t.circuits
        ensures t2.circuits[c] == t.circuits[c]
      {
        assert SwappedId(t.circuits[c].breakerId, src, src) == t.circuits[c].breakerId;
      }
    }
  }

  /** A circuit on neither the source nor the breaker at the destination
      keeps its row, whatever the move's outcome. */
  lemma OtherCircuitsUntouched(t: Tables, ready: bool, req: MoveRequest, production: bool, c: int)
    requires Valid(t) && c in t.circuits
    requires HasRequiredFields(req) ==> t.circuits[c].breakerId != req.sourceBreakerId.value
    requires HasRequiredFields(req) ==>
      !AtAddress(t.breakers[t.circuits[c].breakerId], req.destinationPanelId.value,
                 req.destinationPosition.value, DestinationSlot(req))
    ensures c in Move(t, ready, req, production).1.circuits
    ensures Move(t, ready, req, production).1.circuits[c] == t.circuits[c]
  {
    if HasRequiredFields(req) && ready && req.sourceBreakerId.value in t.breakers {
      var src := req.sourceBreakerId.value;
      var panelId, position, slotText := req.destinationPanelId.value, req.destinationPosition.value, DestinationSlot(req);
      match BreakerAt(t, panelId, position, slotText)
      case Some(dst) =>
        SwapOutcome(t, req, production, dst);
      case None =>
        if panelId in t.panels && position > 0 && ParseSlot(slotText).Some? {
          RelocateOutcome(t, req, production);
        } else {
          RefusedDestination(t, req, production);
        }
    }
  }

  // ---------------------------------------------------------------------------
  // GET /panels/:panelId/breakers/position/:position
  // ---------------------------------------------------------------------------

  /** One row (or none) for a slot, or every row at the position for
      `slot_position=both`. */
  datatype PositionAnswer = OneBreaker(id: Option<int>) | AllSlots(ids: seq<int>)

  /** The handler: the rows at a position for `both`, otherwise the row at
      the requested slot (default 'single'). */
  method LookupByPosition(db: DatabaseService, panelId: int, position: int, slotQuery: Option<string>)
    returns (r: Result<PositionAnswer>)
    requires db.Valid()
    ensures r.Ok? <==> db.Ready()
    ensures r.Err? ==> r.error == NotInitialized
    ensures r.Ok? ==> (r.value.AllSlots? <==> TextOr(slotQuery, "single") == "both")
    ensures r.Ok? && r.value.OneBreaker? ==>
      r.value.id == BreakerAt(db.tables, panelId, position, TextOr(slotQuery, "single"))
    ensures r.Ok? && r.value.AllSlots? ==>
      forall b :: b in r.value.ids <==>
        b in db.tables.breakers && db.tables.breakers[b].panelId == panelId && db.tables.breakers[b].position == position
    ensures r.Ok? && r.value.AllSlots? ==>
      forall i, j :: 0 <= i < j < |r.value.ids| ==>
        r.value.ids[i] in db.tables.breakers && r.value.ids[j] in db.tables.breakers &&
        LexLe(SlotText(db.tables.breakers[r.value.ids[i]].slot), SlotText(db.tables.breakers[r.value.ids[j]].slot)) &&
        db.tables.breakers[r.value.ids[i]].slot != db.tables.breakers[r.value.ids[j]].slot
  {
    var slotText := TextOr(slotQuery, "single");
    if slotText == "both" {
      var all := BreakersAtPosition(db, panelId, position);
      if all.Err? {
        return Err(all.error);
      }
      return Ok(AllSlots(all.value));
    }
    var found := db.FindBreakerAt(panelId, position, slotText);
    if found.Err? {
      return Err(found.error);
    }
    if found.value.Some? {
      BreakerAtUnique(db.tables, panelId, position, slotText, found.value.value);
    }
    return Ok(OneBreaker(found.value));
  }

  /** `SELECT * FROM breakers WHERE panel_id = ? AND position = ? ORDER BY
      slot_position`: every row at the position, one per slot, in the
      text order of the slots. */
  method BreakersAtPosition(db: DatabaseService, panelId: int, position: int) returns (r: Result<seq<int>>)
    requires db.Valid()
    ensures r.Ok? <==> db.Ready()
    ensures r.Err? ==> r.error == NotInitialized
    ensures r.Ok? ==>
      forall b :: b in r.value <==>
        b in db.tables.breakers && db.tables.breakers[b].panelId == panelId && db.tables.breakers[b].position == position
    ensures r.Ok? ==>
      forall i, j :: 0 <= i < j < |r.value| ==>
        r.value[i] in db.tables.breakers && r.value[j] in db.tables.breakers &&
        LexLe(SlotText(db.tables.breakers[r.value[i]].slot), SlotText(db.tables.breakers[r.value[j]].slot)) &&
        db.tables.breakers[r.value[i]].slot != db.tables.breakers[r.value[j]].slot
  {
    var ok := db.EnsureInitialized();
    if ok.Err? {
      return Err(ok.error);
    }
    var ids: seq<int> := [];
    var slots := [SlotA, SlotB, SingleSlot];
    for k := 0 to 3
      invariant db.Ready()
      invariant Collected(db.tables, panelId, position, ids, k)
    {
      var found := db.FindBreakerAt(panelId, position, SlotText(slots[k]));
      CollectStep(db.tables, panelId, position, ids, k, slots[k], found.value);
      if found.value.Some? {
        ids := ids + [found.value.value];
      }
    }
    CollectedAll(db.tables, panelId, position, ids);
    return Ok(ids);
  }

  /** After the lookups of the first `k` slots in rank order: `ids` holds
      exactly the rows at the position whose slot ranks below `k`, in rank
      order. */
  ghost predicate Collected(t: Tables, panelId: int, position: int, ids: seq<int>, k: int) {
    (forall b :: b in ids <==>
      b in t.breakers && t.breakers[b].panelId == panelId &&
      t.breakers[b].position == position && SlotRank(t.breakers[b].slot) < k) &&
    (forall i :: 0 <= i < |ids| ==> ids[i] in t.breakers && SlotRank(t.breakers[ids[i]].slot) < k) &&
    (forall i, j :: 0 <= i < j < |ids| ==>
      ids[i] in t.breakers && ids[j] in t.breakers &&
      SlotRank(t.breakers[ids[i]].slot) < SlotRank(t.breakers[ids[j]].slot))
  }

  /** The lookup of the slot of rank `k` adds the row found there, if any. */
  lemma CollectStep(t: Tables, panelId: int, position: int, ids: seq<int>, k: int, slot: Slot, found: Option<int>)
    requires Valid(t) && 0 <= k && SlotRank(slot) == k
    requires Collected(t, panelId, position, ids, k)
    requires found.Some? ==> found.value in t.breakers && AtAddress(t.breakers[found.value], panelId, position, SlotText(slot))
    requires found.None? ==> forall id :: id in t.breakers ==> !AtAddress(t.breakers[id], panelId, position, SlotText(slot))
    ensures Collected(t, panelId, position, ids + (if found.Some? then [found.value] else []), k + 1)
  {
    var next := ids + (if found.Some? then [found.value] else []);
    forall b | b in t.breakers && t.breakers[b].panelId == panelId &&
        t.breakers[b].position == position && t.breakers[b].slot == slot
      ensures b in next
    {
      assert AtAddress(t.breakers[b], panelId, position, SlotText(slot));
      if found.Some? {
        BreakerAtUnique(t, panelId, position, SlotText(slot), b);
        BreakerAtUnique(t, panelId, position, SlotText(slot), found.value);
      }
    }
  }

  /** All three slots looked up: every row at the position, in text order. */
  lemma CollectedAll(t: Tables, panelId: int, position: int, ids: seq<int>)
    requires Collected(t, panelId, position, ids, 3)
    ensures forall b :: b in ids <==>
      b in t.breakers && t.breakers[b].panelId == panelId && t.breakers[b].position == position
    ensures forall i, j :: 0 <= i < j < |ids| ==>
      ids[i] in t.breakers && ids[j] in t.breakers &&
      LexLe(SlotText(t.breakers[ids[i]].slot), SlotText(t.breakers[ids[j]].slot)) &&
      t.breakers[ids[i]].slot != t.breakers[ids[j]].slot
  {
    forall i, j | 0 <= i < j < |ids|
      ensures LexLe(SlotText(t.breakers[ids[i]].slot), SlotText(t.breakers[ids[j]].slot))
    {
      SlotOrderIsTextOrder(t.breakers[ids[i]].slot, t.breakers[ids[j]].slot);
    }
  }

  /** The order of `ORDER BY slot_position` on the three slot texts. */
  function SlotRank(s: Slot): int {
    match s
    case SlotA => 0
    case SlotB => 1
    case SingleSlot => 2
  }

  lemma SlotOrderIsTextOrder(a: Slot, b: Slot)
    requires SlotRank(a) < SlotRank(b)
    ensures LexLe(SlotText(a), SlotText(b))
  {
  }
}
