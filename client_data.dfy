/** The records the browser client keeps, as the JSON API delivers them:
    the column names of the store, with `room`, `room_level` and
    `slot_position` joined into a circuit, and the legacy boolean
    `double_pole`/`tandem` flags of older breaker rows. */
module ClientData {
  import opened Common

  datatype UiPanel = UiPanel(id: int, name: string, size: int)

  datatype UiRoom = UiRoom(id: int, name: string, level: string)

  /** A breaker; `id` is absent for a breaker the editor has not saved yet. */
  datatype UiBreaker = UiBreaker(
    id: Option<int>, panelId: int, position: int, slotPosition: Option<string>,
    labelText: Option<string>, amperage: Option<int>,
    critical: bool, monitor: bool, confirmed: bool,
    breakerType: Option<string>, doublePole: bool, tandem: bool)

  /** A circuit; `circuitType` is the `type` column and `legacyType` the
      older `circuit_type` spelling some payloads still carry. */
  datatype UiCircuit = UiCircuit(
    id: int, breakerId: int, roomId: Option<int>, room: Option<string>,
    roomLevel: Option<string>, circuitType: Option<string>, legacyType: Option<string>,
    notes: Option<string>, subpanelId: Option<int>, slotPosition: Option<string>)

  /** One line of the circuit list: a circuit with the breaker feeding it. */
  datatype CircuitRow = CircuitRow(circuit: UiCircuit, breaker: UiBreaker)

  /** `{ column, direction }` of the circuit list. */
  datatype SortState = SortState(column: string, direction: string)

  const DefaultSort := SortState("breaker", "asc")

  /** `slot_position || 'single'`. */
  function SlotOf(b: UiBreaker): string {
    TextOr(b.slotPosition, "single")
  }
}
