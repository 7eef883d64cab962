/** The relational store behind the server, as in-memory tables: the four
    tables that `createTables` declares, the constraints it attaches to them
    (CHECK, UNIQUE, FOREIGN KEY with their ON DELETE actions, AUTOINCREMENT
    ids), and each statement the server issues as a function from tables to
    tables or to the constraint error SQLite raises. */
module Schema {
  import opened Common

  // ---------------------------------------------------------------------------
  // Enumerated columns
  // ---------------------------------------------------------------------------

  /** `slot_position`: a whole position, or one half of a tandem pair. */
  datatype Slot = SingleSlot | SlotA | SlotB

  function SlotText(s: Slot): string {
    match s
    case SingleSlot => "single"
    case SlotA => "A"
    case SlotB => "B"
  }

  /** The `slot_position IN ('single', 'A', 'B')` check, read as a parser. */
  function ParseSlot(text: string): (r: Option<Slot>)
    ensures forall s :: r == Some(s) <==> SlotText(s) == text
  {
    if text == "single" then Some(SingleSlot)
    else if text == "A" then Some(SlotA)
    else if text == "B" then Some(SlotB)
    else None
  }

  datatype BreakerType = SinglePole | DoublePole | Tandem

  function BreakerTypeText(b: BreakerType): string {
    match b
    case SinglePole => "single"
    case DoublePole => "double_pole"
    case Tandem => "tandem"
  }

  /** The `breaker_type IN ('single', 'double_pole', 'tandem')` check. */
  function ParseBreakerType(text: string): (r: Option<BreakerType>)
    ensures forall b :: r == Some(b) <==> BreakerTypeText(b) == text
  {
    if text == "single" then Some(SinglePole)
    else if text == "double_pole" then Some(DoublePole)
    else if text == "tandem" then Some(Tandem)
    else None
  }

  datatype Level = Basement | MainLevel | UpperLevel | Outside

  function LevelText(l: Level): string {
    match l
    case Basement => "basement"
    case MainLevel => "main"
    case UpperLevel => "upper"
    case Outside => "outside"
  }

  /** The `level IN ('basement', 'main', 'upper', 'outside')` check. */
  function ParseLevel(text: string): (r: Option<Level>)
    ensures forall l :: r == Some(l) <==> LevelText(l) == text
  {
    if text == "basement" then Some(Basement)
    else if text == "main" then Some(MainLevel)
    else if text == "upper" then Some(UpperLevel)
    else if text == "outside" then Some(Outside)
    else None
  }

  datatype CircuitType = Outlet | Lighting | Heating | Appliance | Subpanel

  // ---------------------------------------------------------------------------
  // Rows and tables
  // ---------------------------------------------------------------------------

  datatype Panel = Panel(name: string, size: int)

  /** A row of `breakers`; `critical` is carried as the server writes it. */
  datatype Breaker = Breaker(
    panelId: int, position: int, slot: Slot, labelText: Option<string>,
    amperage: Option<int>, critical: bool, monitor: bool, confirmed: bool,
    breakerType: BreakerType)

  datatype Room = Room(name: string, level: Level)

  datatype Circuit = Circuit(
    breakerId: int, roomId: Option<int>, circuitType: Option<CircuitType>,
    notes: Option<string>, subpanelId: Option<int>)

  /** The physical address of a breaker: the key of `UNIQUE(panel_id,
      position, slot_position)`. */
  datatype Address = Address(panelId: int, position: int, slot: Slot)

  function AddressOf(b: Breaker): Address {
    Address(b.panelId, b.position, b.slot)
  }

  /** The four tables, keyed by id, with the next AUTOINCREMENT id of each. */
  datatype Tables = Tables(
    panels: map<int, Panel>, breakers: map<int, Breaker>,
    rooms: map<int, Room>, circuits: map<int, Circuit>,
    nextPanelId: int, nextBreakerId: int, nextRoomId: int, nextCircuitId: int)

  const EmptyTables := Tables(map[], map[], map[], map[], 1, 1, 1, 1)

  // ---------------------------------------------------------------------------
  // The schema's constraints, as the invariant of the store
  // ---------------------------------------------------------------------------

  predicate PanelRowOk(p: Panel) { |p.name| > 0 && 12 <= p.size <= 42 }

  predicate AmperageOk(a: Option<int>) { a.None? || 0 < a.value <= 200 }

  predicate BreakerRowOk(b: Breaker) { b.position > 0 && AmperageOk(b.amperage) }

  predicate RoomRowOk(r: Room) { |r.name| > 0 }

  ghost predicate UniqueAddresses(breakers: map<int, Breaker>) {
    forall a, b :: a in breakers && b in breakers && AddressOf(breakers[a]) == AddressOf(breakers[b]) ==> a == b
  }

  ghost predicate UniqueRoomNames(rooms: map<int, Room>) {
    forall a, b :: a in rooms && b in rooms && rooms[a].name == rooms[b].name ==> a == b
  }

  /** Every reference a circuit holds points at a live row. */
  ghost predicate CircuitRefsOk(t: Tables) {
    forall c :: c in t.circuits ==>
      t.circuits[c].breakerId in t.breakers &&
      (t.circuits[c].roomId.Some? ==> t.circuits[c].roomId.value in t.rooms) &&
      (t.circuits[c].subpanelId.Some? ==> t.circuits[c].subpanelId.value in t.panels)
  }

  ghost predicate IdsOk(t: Tables) {
    t.nextPanelId > 0 && t.nextBreakerId > 0 && t.nextRoomId > 0 && t.nextCircuitId > 0 &&
    (forall id :: id in t.panels ==> 0 < id < t.nextPanelId) &&
    (forall id :: id in t.breakers ==> 0 < id < t.nextBreakerId) &&
    (forall id :: id in t.rooms ==> 0 < id < t.nextRoomId) &&
    (forall id :: id in t.circuits ==> 0 < id < t.nextCircuitId)
  }

  /** Everything `createTables` makes SQLite enforce. */
  ghost predicate Valid(t: Tables) {
    (forall id :: id in t.panels ==> PanelRowOk(t.panels[id])) &&
    (forall id :: id in t.breakers ==> BreakerRowOk(t.breakers[id]) && t.breakers[id].panelId in t.panels) &&
    (forall id :: id in t.rooms ==> RoomRowOk(t.rooms[id])) &&
    UniqueAddresses(t.breakers) && UniqueRoomNames(t.rooms) &&
    CircuitRefsOk(t) && IdsOk(t)
  }

  lemma EmptyTablesValid()
    ensures Valid(EmptyTables)
  {
  }

  // ---------------------------------------------------------------------------
  // Errors SQLite raises (node-sqlite3 puts the code in front of the message)
  // ---------------------------------------------------------------------------

  datatype StoreError = StoreError(message: string, code: Option<string>)

  datatype Result<+T> = Ok(value: T) | Err(error: StoreError)

  const ConstraintCode := "SQLITE_CONSTRAINT"
  const ConstraintPrefix := "SQLITE_CONSTRAINT: "

  function CheckFailed(expr: string): StoreError {
    StoreError(ConstraintPrefix + "CHECK constraint failed: " + expr, Some(ConstraintCode))
  }

  const ForeignKeyFailed := StoreError(ConstraintPrefix + "FOREIGN KEY constraint failed", Some(ConstraintCode))

  const BreakerAddressTaken := StoreError(
    ConstraintPrefix + "UNIQUE constraint failed: breakers.panel_id, breakers.position, breakers.slot_position",
    Some(ConstraintCode))

  const RoomNameTaken := StoreError(ConstraintPrefix + "UNIQUE constraint failed: rooms.name", Some(ConstraintCode))

  // ---------------------------------------------------------------------------
  // Reads
  // ---------------------------------------------------------------------------

  predicate AtAddress(b: Breaker, panelId: int, position: int, slotText: string) {
    b.panelId == panelId && b.position == position && SlotText(b.slot) == slotText
  }

  /** `SELECT * FROM breakers WHERE panel_id = ? AND position = ? AND
      slot_position = ?`: the id of the row at that address, if any. */
  ghost function BreakerAt(t: Tables, panelId: int, position: int, slotText: string): (r: Option<int>)
    ensures r.Some? ==> r.value in t.breakers && AtAddress(t.breakers[r.value], panelId, position, slotText)
    ensures r.None? ==> forall id :: id in t.breakers ==> !AtAddress(t.breakers[id], panelId, position, slotText)
  {
    if exists id :: id in t.breakers && AtAddress(t.breakers[id], panelId, position, slotText) then
      Some(var id :| id in t.breakers && AtAddress(t.breakers[id], panelId, position, slotText); id)
    else None
  }

  /** Under the UNIQUE constraint at most one row answers an address lookup. */
  lemma BreakerAtUnique(t: Tables, panelId: int, position: int, slotText: string, id: int)
    requires Valid(t)
    requires id in t.breakers && AtAddress(t.breakers[id], panelId, position, slotText)
    ensures BreakerAt(t, panelId, position, slotText) == Some(id)
  {
    var r := BreakerAt(t, panelId, position, slotText);
    assert AddressOf(t.breakers[r.value]) == AddressOf(t.breakers[id]);
  }

  /** `SELECT * FROM circuits WHERE breaker_id = ?`, as the set of ids. */
  function CircuitsOf(circuits: map<int, Circuit>, breakerId: int): set<int> {
    set c | c in circuits && circuits[c].breakerId == breakerId
  }

  // ---------------------------------------------------------------------------
  // Writes
  // ---------------------------------------------------------------------------

  /** The values an `INSERT INTO breakers` supplies, as SQL text where the
      schema checks them. */
  datatype BreakerInsert = BreakerInsert(
    panelId: int, position: int, slotText: string, labelText: Option<string>,
    amperage: Option<int>, critical: bool, monitor: bool, confirmed: bool,
    typeText: string)

  /** The first constraint of `breakers` the row violates, in SQLite's order:
      the CHECK clauses, then UNIQUE, then the panel foreign key. */
  function InsertBreaker(t: Tables, row: BreakerInsert): (r: Result<Tables>)
    ensures r.Ok? ==> ParseSlot(row.slotText).Some? && ParseBreakerType(row.typeText).Some?
    ensures r.Ok? ==> r.value == t.(
      breakers := t.breakers[t.nextBreakerId := Breaker(
        row.panelId, row.position, ParseSlot(row.slotText).value, row.labelText, row.amperage,
        row.critical, row.monitor, row.confirmed, ParseBreakerType(row.typeText).value)],
      nextBreakerId := t.nextBreakerId + 1)
  {
    var slot := ParseSlot(row.slotText);
    var kind := ParseBreakerType(row.typeText);
    if row.position <= 0 then Err(CheckFailed("position > 0"))
    else if slot.None? then Err(CheckFailed("slot_position IN ('single', 'A', 'B')"))
    else if !AmperageOk(row.amperage) then Err(CheckFailed("amperage > 0 AND amperage <= 200"))
    else if kind.None? then Err(CheckFailed("breaker_type IN ('single', 'double_pole', 'tandem')"))
    else
      var b := Breaker(row.panelId, row.position, slot.value, row.labelText, row.amperage,
                       row.critical, row.monitor, row.confirmed, kind.value);
      if exists id :: id in t.breakers && AddressOf(t.breakers[id]) == AddressOf(b) then Err(BreakerAddressTaken)
      else if row.panelId !in t.panels then Err(ForeignKeyFailed)
      else Ok(t.(breakers := t.breakers[t.nextBreakerId := b], nextBreakerId := t.nextBreakerId + 1))
  }

  /** A second row at a taken address is refused with the UNIQUE error, and
      the tables are left as they were. */
  lemma InsertAtTakenAddressFails(t: Tables, row: BreakerInsert, id: int)
    requires id in t.breakers && row.position > 0 && AmperageOk(row.amperage)
    requires ParseBreakerType(row.typeText).Some?
    requires AtAddress(t.breakers[id], row.panelId, row.position, row.slotText)
    ensures InsertBreaker(t, row) == Err(BreakerAddressTaken)
  {
    var b := t.breakers[id];
    assert ParseSlot(row.slotText) == Some(b.slot);
  }

  /** `UPDATE circuits SET breaker_id = ? WHERE id = ?`: no row changes when
      the circuit is absent; the foreign key refuses an absent breaker. */
  function SetCircuitBreaker(t: Tables, circuitId: int, breakerId: int): (r: Result<Tables>)
    ensures r.Err? <==> circuitId in t.circuits && breakerId !in t.breakers
    ensures r.Err? ==> r.error == ForeignKeyFailed
    ensures r.Ok? ==> r.value.(circuits := t.circuits) == t && r.value.circuits.Keys == t.circuits.Keys
    ensures r.Ok? ==> forall c :: c in t.circuits ==>
      r.value.circuits[c] == (if c == circuitId then t.circuits[c].(breakerId := breakerId) else t.circuits[c])
  {
    if circuitId !in t.circuits then Ok(t)
    else if breakerId !in t.breakers then Err(ForeignKeyFailed)
    else Ok(t.(circuits := t.circuits[circuitId := t.circuits[circuitId].(breakerId := breakerId)]))
  }

  /** `DELETE FROM breakers WHERE id = ?`; ON DELETE CASCADE removes the
      circuits of the breaker with it. */
  function DeleteBreaker(t: Tables, id: int): (r: Tables)
    ensures id !in r.breakers && r.breakers == t.breakers - {id}
    ensures forall c :: c in r.circuits <==> c in t.circuits && t.circuits[c].breakerId != id
    ensures forall c :: c in r.circuits ==> r.circuits[c] == t.circuits[c]
    ensures r.(breakers := t.breakers, circuits := t.circuits) == t
  {
    t.(breakers := t.breakers - {id},
       circuits := map c | c in t.circuits && t.circuits[c].breakerId != id :: t.circuits[c])
  }

  function ClearSubpanel(c: Circuit, panelId: int): Circuit {
    if c.subpanelId == Some(panelId) then c.(subpanelId := None) else c
  }

  /** `DELETE FROM panels WHERE id = ?`: the panel's breakers go (CASCADE),
      their circuits with them (CASCADE), and circuits that fed the panel
      lose their `subpanel_id` (SET NULL). */
  function DeletePanel(t: Tables, id: int): (r: Tables)
    ensures id !in r.panels
    ensures forall b :: b in r.breakers <==> b in t.breakers && t.breakers[b].panelId != id
    ensures forall c :: c in r.circuits ==> r.circuits[c].subpanelId != Some(id)
    ensures forall b :: b in r.breakers ==> r.breakers[b] == t.breakers[b]
    ensures forall c :: c in r.circuits <==>
      c in t.circuits && t.circuits[c].breakerId in t.breakers && t.breakers[t.circuits[c].breakerId].panelId != id
    ensures forall c :: c in r.circuits ==>
      r.circuits[c] == t.circuits[c].(subpanelId := if t.circuits[c].subpanelId == Some(id) then None else t.circuits[c].subpanelId)
    ensures r.panels == t.panels - {id}
    ensures r.(panels := t.panels, breakers := t.breakers, circuits := t.circuits) == t
  {
    t.(panels := t.panels - {id},
       breakers := map b | b in t.breakers && t.breakers[b].panelId != id :: t.breakers[b],
       circuits := map c | c in t.circuits && OnLivePanel(t, t.circuits[c].breakerId, id) :: ClearSubpanel(t.circuits[c], id))
  }

  predicate OnLivePanel(t: Tables, breakerId: int, deletedPanel: int) {
    breakerId in t.breakers && t.breakers[breakerId].panelId != deletedPanel
  }

  /** `DELETE FROM rooms WHERE id = ?`: circuits in the room keep existing
      with `room_id` set to null (SET NULL). */
  function DeleteRoom(t: Tables, id: int): (r: Tables)
    ensures id !in r.rooms && r.circuits.Keys == t.circuits.Keys
    ensures forall c :: c in r.circuits ==>
      r.circuits[c] == (if t.circuits[c].roomId == Some(id) then t.circuits[c].(roomId := None) else t.circuits[c])
    ensures Valid(t) ==> Valid(r)
  {
    t.(rooms := t.rooms - {id},
       circuits := map c | c in t.circuits ::
         if t.circuits[c].roomId == Some(id) then t.circuits[c].(roomId := None) else t.circuits[c])
  }

  /** `INSERT INTO panels (name, size)`: the two CHECK clauses. */
  function InsertPanel(t: Tables, name: string, size: int): (r: Result<Tables>)
    ensures r.Ok? <==> |name| > 0 && 12 <= size <= 42
    ensures r.Ok? ==> r.value == t.(panels := t.panels[t.nextPanelId := Panel(name, size)], nextPanelId := t.nextPanelId + 1)
  {
    if |name| == 0 then Err(CheckFailed("length(name) > 0"))
    else if !(12 <= size <= 42) then Err(CheckFailed("size >= 12 AND size <= 42"))
    else Ok(t.(panels := t.panels[t.nextPanelId := Panel(name, size)], nextPanelId := t.nextPanelId + 1))
  }

  /** `INSERT INTO rooms (name, level)`: the CHECK clauses, then the UNIQUE
      room name. */
  function InsertRoom(t: Tables, name: string, levelText: string): (r: Result<Tables>)
    ensures r.Ok? <==> |name| > 0 && ParseLevel(levelText).Some? &&
                       forall id :: id in t.rooms ==> t.rooms[id].name != name
    ensures r.Ok? ==> r.value == t.(rooms := t.rooms[t.nextRoomId := Room(name, ParseLevel(levelText).value)], nextRoomId := t.nextRoomId + 1)
  {
    if |name| == 0 then Err(CheckFailed("length(name) > 0"))
    else if ParseLevel(levelText).None? then Err(CheckFailed("level IN ('basement', 'main', 'upper', 'outside')"))
    else if exists id :: id in t.rooms && t.rooms[id].name == name then Err(RoomNameTaken)
    else Ok(t.(rooms := t.rooms[t.nextRoomId := Room(name, ParseLevel(levelText).value)], nextRoomId := t.nextRoomId + 1))
  }

  // ---------------------------------------------------------------------------
  // Every statement keeps the schema's constraints
  // ---------------------------------------------------------------------------

  lemma InsertBreakerKeepsValid(t: Tables, row: BreakerInsert)
    requires Valid(t) && InsertBreaker(t, row).Ok?
    ensures Valid(InsertBreaker(t, row).value)
  {
    var r := InsertBreaker(t, row).value;
    var n := t.nextBreakerId;
    var b := r.breakers[n];
    assert n !in t.breakers;
    assert forall id :: id in t.breakers ==> AddressOf(t.breakers[id]) != AddressOf(b);
    assert UniqueAddresses(r.breakers);
    assert CircuitRefsOk(r);
  }

  lemma SetCircuitBreakerKeepsValid(t: Tables, circuitId: int, breakerId: int)
    requires Valid(t) && SetCircuitBreaker(t, circuitId, breakerId).Ok?
    ensures Valid(SetCircuitBreaker(t, circuitId, breakerId).value)
  {
    var r := SetCircuitBreaker(t, circuitId, breakerId).value;
    assert CircuitRefsOk(r);
  }

  /** The cascade is what keeps circuits from dangling after a delete. */
  lemma DeleteBreakerKeepsValid(t: Tables, id: int)
    requires Valid(t)
    ensures Valid(DeleteBreaker(t, id))
  {
    var r := DeleteBreaker(t, id);
    assert CircuitRefsOk(r) by {
      forall c | c in r.circuits
        ensures r.circuits[c].breakerId in r.breakers
      {
        assert r.circuits[c] == t.circuits[c];
      }
    }
  }

  lemma DeletePanelKeepsValid(t: Tables, id: int)
    requires Valid(t)
    ensures Valid(DeletePanel(t, id))
  {
    var r := DeletePanel(t, id);
    forall b | b in r.breakers
      ensures r.breakers[b].panelId in r.panels
    {
      assert r.breakers[b] == t.breakers[b];
    }
    assert CircuitRefsOk(r) by {
      forall c | c in r.circuits
        ensures r.circuits[c].breakerId in r.breakers
        ensures r.circuits[c].roomId.Some? ==> r.circuits[c].roomId.value in r.rooms
        ensures r.circuits[c].subpanelId.Some? ==> r.circuits[c].subpanelId.value in r.panels
      {
        assert OnLivePanel(t, t.circuits[c].breakerId, id);
      }
    }
  }

  lemma DeleteRoomKeepsValid(t: Tables, id: int)
    requires Valid(t)
    ensures Valid(DeleteRoom(t, id))
  {
    var r := DeleteRoom(t, id);
    assert CircuitRefsOk(r);
  }

  lemma InsertPanelKeepsValid(t: Tables, name: string, size: int)
    requires Valid(t) && InsertPanel(t, name, size).Ok?
    ensures Valid(InsertPanel(t, name, size).value)
  {
    assert t.nextPanelId !in t.panels;
  }

  lemma InsertRoomKeepsValid(t: Tables, name: string, levelText: string)
    requires Valid(t) && InsertRoom(t, name, levelText).Ok?
    ensures Valid(InsertRoom(t, name, levelText).value)
  {
    var r := InsertRoom(t, name, levelText).value;
    assert t.nextRoomId !in t.rooms;
    assert UniqueRoomNames(r.rooms);
  }
}
