/** The move dialog `MoveManager`: the source and destination it
    remembers, the preview of a move it shows, the request it sends and
    what cancelling does. */
module MovePreview {
  import opened Common
  import opened ClientData
  import opened PanelApp
  import opened PanelRendering
  import Routes

  // ---------------------------------------------------------------------------
  // The dialog's state
  // ---------------------------------------------------------------------------

  /** The six fields `MoveManager` keeps between clicks. */
  datatype MoveState = MoveState(
    sourceBreaker: Option<UiBreaker>, sourcePosition: Option<int>, sourceSlot: Option<string>,
    destinationPanel: Option<UiPanel>, destinationPosition: Option<int>, destinationSlot: Option<string>)

  /** Every field null, as after the constructor and `resetMoveState`. */
  const Cleared := MoveState(None, None, None, None, None, None)

  /** The source position and slot are those of the source breaker, and a
      destination position always comes with its slot. */
  predicate Consistent(s: MoveState) {
    (s.sourceBreaker.Some? <==> s.sourcePosition.Some?) &&
    (s.sourceBreaker.Some? <==> s.sourceSlot.Some?) &&
    (s.sourceBreaker.Some? ==>
      s.sourcePosition.value == s.sourceBreaker.value.position &&
      s.sourceSlot.value == SlotOf(s.sourceBreaker.value)) &&
    (s.destinationPosition.Some? ==> s.destinationSlot.Some?)
  }

  /** The dialog's state and the application's current breaker after a step,
      and whether the breaker editor was (re)opened or an error shown. */
  datatype Step = Step(state: MoveState, currentBreaker: Option<UiBreaker>, flag: bool)

  /** The first half of `openMoveModal()`: without a current breaker it
      reports an error and changes nothing; otherwise it copies the breaker
      as the source and closes the breaker editor, which clears the current
      breaker. `DefaultDestination` is the second half. */
  function OpenMove(s: MoveState, current: Option<UiBreaker>): (r: Step)
    ensures r.flag <==> current.None?
    ensures current.None? ==> r.state == s && r.currentBreaker == current
    ensures current.Some? ==>
      r.state.sourceBreaker == current && r.state.sourcePosition == Some(current.value.position) &&
      r.state.sourceSlot == Some(SlotOf(current.value)) && r.currentBreaker == None
    ensures r.state.destinationPanel == s.destinationPanel
    ensures r.state.destinationPosition == s.destinationPosition && r.state.destinationSlot == s.destinationSlot
    ensures Consistent(s) ==> Consistent(r.state)
  {
    if current.None? then Step(s, current, true)
    else
      var b := current.value;
      Step(MoveState(Some(b), Some(b.position), Some(SlotOf(b)), s.destinationPanel,
                     s.destinationPosition, s.destinationSlot), None, false)
  }

  /** The end of `loadPanelOptions()`, which `openMoveModal()` awaits: with
      a current panel, the destination defaults to it, through
      `loadDestinationPanel(currentPanel.id)`; `fetched` is what the panel
      request returned, absent when it failed. */
  function DefaultDestination(s: MoveState, currentPanel: Option<UiPanel>, fetched: Option<UiPanel>): (r: MoveState)
    ensures currentPanel.Some? && currentPanel.value.id != 0 && fetched.Some? ==> r == s.(destinationPanel := fetched)
    ensures !(currentPanel.Some? && currentPanel.value.id != 0 && fetched.Some?) ==> r == s
    ensures Consistent(s) ==> Consistent(r)
  {
    if currentPanel.Some? && TruthyInt(Some(currentPanel.value.id)) && fetched.Some? then s.(destinationPanel := fetched)
    else s
  }

  /** `openMoveModal()` whole: the two halves, the second only when the
      first found a breaker. */
  function OpenMoveDialog(s: MoveState, current: Option<UiBreaker>, currentPanel: Option<UiPanel>,
                          fetched: Option<UiPanel>): (r: Step)
    ensures r.flag <==> current.None?
    ensures current.None? ==> r == Step(s, current, true)
    ensures current.Some? ==> r == OpenMove(s, current).(state := DefaultDestination(OpenMove(s, current).state, currentPanel, fetched))
  {
    var first := OpenMove(s, current);
    if first.flag then first else first.(state := DefaultDestination(first.state, currentPanel, fetched))
  }

  /** Opening the dialog on a breaker of the panel being shown makes that
      panel the destination, so a move within the panel needs no choice of
      panel. */
  lemma OpenDefaultsToCurrentPanel(s: MoveState, b: UiBreaker, panel: UiPanel)
    requires panel.id != 0
    ensures var r := OpenMoveDialog(s, Some(b), Some(panel), Some(panel));
      r.state.destinationPanel == Some(panel) && r.state.sourceBreaker == Some(b) && r.currentBreaker.None?
  {
  }

  /** `cancelMove()` as written: `closeMoveModal` clears the state first,
      so the test of `sourceBreaker` that follows never succeeds. */
  function CancelAsWritten(s: MoveState, current: Option<UiBreaker>): (r: Step)
    ensures r.state == Cleared && r.currentBreaker == current && !r.flag
  {
    var after := Cleared;
    if after.sourceBreaker.Some? then Step(after, after.sourceBreaker, true)
    else Step(after, current, false)
  }

  /** `cancelMove()` as intended: the source breaker, taken before the
      state is cleared, becomes the current breaker again and its editor
      reopens. */
  function CancelIntended(s: MoveState, current: Option<UiBreaker>): (r: Step)
    ensures r.state == Cleared
    ensures r.flag <==> s.sourceBreaker.Some?
    ensures r.currentBreaker == if s.sourceBreaker.Some? then s.sourceBreaker else current
  {
    var source := s.sourceBreaker;
    if source.Some? then Step(Cleared, source, true) else Step(Cleared, current, false)
  }

  /** Opening the move dialog on a breaker and cancelling it, as written,
      leaves no current breaker and no editor, where the comment in
      `cancelMove` promises the breaker's editor back. */
  lemma CancelAfterOpenLosesBreaker(s: MoveState, b: UiBreaker)
    ensures var afterOpen := OpenMove(s, Some(b));
      var cancelled := CancelAsWritten(afterOpen.state, afterOpen.currentBreaker);
      cancelled.currentBreaker == None && !cancelled.flag &&
      CancelIntended(afterOpen.state, afterOpen.currentBreaker).currentBreaker == Some(b)
  {
  }

  /** With the intended `cancelMove`, cancelling undoes opening: the breaker
      is current again, its editor reopens and the dialog is cleared. */
  lemma CancelUndoesOpen(s: MoveState, current: Option<UiBreaker>)
    requires current.Some?
    ensures var afterOpen := OpenMove(s, current);
      CancelIntended(afterOpen.state, afterOpen.currentBreaker) == Step(Cleared, current, true)
  {
  }

  /** The dialog's state together with the application's current panel,
      which the destination renderer shares with the main view. */
  datatype Dialog = Dialog(state: MoveState, currentPanel: Option<UiPanel>)

  /** `loadDestinationPanel(panelId)` as written: a panel fetched for a
      non-empty id becomes the destination, and `renderDestinationPanel()`
      also makes it the current panel of the shared `app`. */
  function LoadAsWritten(d: Dialog, panelId: Option<int>, fetched: Option<UiPanel>): (r: Dialog)
    ensures TruthyInt(panelId) && fetched.Some? ==>
      r.state == d.state.(destinationPanel := fetched) && r.currentPanel == r.state.destinationPanel
    ensures !(TruthyInt(panelId) && fetched.Some?) ==> r == d
    ensures Consistent(d.state) ==> Consistent(r.state)
  {
    if TruthyInt(panelId) && fetched.Some? then Dialog(d.state.(destinationPanel := fetched), fetched)
    else d
  }

  /** `loadDestinationPanel(panelId)` as intended: the destination renderer
      shows the chosen panel without changing the main view's panel. */
  function LoadIntended(d: Dialog, panelId: Option<int>, fetched: Option<UiPanel>): (r: Dialog)
    ensures r.currentPanel == d.currentPanel
    ensures r.state == LoadAsWritten(d, panelId, fetched).state
  {
    Dialog(LoadAsWritten(d, panelId, fetched).state, d.currentPanel)
  }

  // ---------------------------------------------------------------------------
  // The preview
  // ---------------------------------------------------------------------------

  /** The first breaker of the destination panel at `position` whose slot,
      `single` when missing, is `slot`. */
  function FindDestinationBreaker(breakers: seq<UiBreaker>, position: int, slot: string): (r: Option<UiBreaker>)
    ensures r.Some? ==> r.value in breakers && r.value.position == position && SlotOf(r.value) == slot
    ensures r.None? <==> forall b :: b in breakers ==> b.position != position || SlotOf(b) != slot
    decreases |breakers|
  {
    if breakers == [] then None
    else if breakers[0].position == position && SlotOf(breakers[0]) == slot then Some(breakers[0])
    else
      var rest := FindDestinationBreaker(breakers[1..], position, slot);
      assert forall b :: b in breakers <==> b == breakers[0] || b in breakers[1..];
      rest
  }

  /** The circuits of breaker `breakerId` in slot `slot` (a missing slot
      counting as `single`), in cache order. A breaker without an id has
      none. */
  function SlotCircuits(cs: seq<UiCircuit>, breakerId: Option<int>, slot: string): (r: seq<UiCircuit>)
    ensures forall c :: c in r <==> c in cs && breakerId == Some(c.breakerId) && TextOr(c.slotPosition, "single") == slot
    ensures |r| <= |cs|
    decreases |cs|
  {
    if cs == [] then []
    else
      var rest := SlotCircuits(cs[1..], breakerId, slot);
      var c := cs[0];
      assert forall x :: x in cs <==> x == c || x in cs[1..];
      if breakerId == Some(c.breakerId) && TextOr(c.slotPosition, "single") == slot then [c] + rest else rest
  }

  /** The selection keeps cache order: selecting from two runs of the cache
      is selecting from each and concatenating. */
  lemma {:induction false} SlotCircuitsAppend(a: seq<UiCircuit>, b: seq<UiCircuit>, breakerId: Option<int>, slot: string)
    ensures SlotCircuits(a + b, breakerId, slot) == SlotCircuits(a, breakerId, slot) + SlotCircuits(b, breakerId, slot)
    decreases |a|
  {
    if a != [] {
      assert (a + b)[1..] == a[1..] + b;
      SlotCircuitsAppend(a[1..], b, breakerId, slot);
    } else {
      assert a + b == b;
    }
  }

  /** `getRoomName(roomId)`. */
  function GetRoomName(roomId: Option<int>, rooms: seq<UiRoom>): (r: string)
    ensures !TruthyInt(roomId) ==> r == "No Room"
    ensures TruthyInt(roomId) && FindRoom(rooms, roomId.value).Some? ==> r == FindRoom(rooms, roomId.value).value.name
    ensures TruthyInt(roomId) && FindRoom(rooms, roomId.value).None? ==> r == "Room " + IntToString(roomId.value)
  {
    if !TruthyInt(roomId) then "No Room"
    else
      match FindRoom(rooms, roomId.value)
      case Some(room) => room.name
      case None => "Room " + IntToString(roomId.value)
  }

  /** The first room with id `id`. */
  function FindRoom(rooms: seq<UiRoom>, id: int): (r: Option<UiRoom>)
    ensures r.Some? ==> r.value in rooms && r.value.id == id
    ensures r.None? <==> forall room :: room in rooms ==> room.id != id
    decreases |rooms|
  {
    if rooms == [] then None
    else if rooms[0].id == id then Some(rooms[0])
    else
      var rest := FindRoom(rooms[1..], id);
      assert forall x :: x in rooms <==> x == rooms[0] || x in rooms[1..];
      rest
  }

  /** A position as shown: the number, then the slot letter unless the
      slot is `single`. */
  function PositionText(position: int, slot: string): string {
    IntToString(position) + (if slot != "single" then slot else "")
  }

  predicate IsSlot(slot: string) {
    slot == "single" || slot == "A" || slot == "B"
  }

  /** Two positions of a panel (single, or slot A or B of a tandem) are
      never shown the same way. */
  lemma PositionTextInjective(p1: nat, s1: string, p2: nat, s2: string)
    requires IsSlot(s1) && IsSlot(s2)
    requires PositionText(p1, s1) == PositionText(p2, s2)
    ensures p1 == p2 && s1 == s2
  {
    var d1 := NatToString(p1);
    var d2 := NatToString(p2);
    var t := PositionText(p1, s1);
    assert t[|t| - 1] == (if s1 == "single" then d1[|d1| - 1] else s1[0]);
    assert t[|t| - 1] == (if s2 == "single" then d2[|d2| - 1] else s2[0]);
    assert s1 == "single" <==> s2 == "single";
    if s1 == "single" {
      assert IntToString(p1) + "" == IntToString(p1) && IntToString(p2) + "" == IntToString(p2);
      IntToStringInjective(p1, p2);
    } else {
      assert d1 == t[..|t| - 1] == d2;
      ParseNatToString(p1);
      ParseNatToString(p2);
    }
  }

  /** One circuit line of the preview: room, type and notes. */
  datatype PreviewLine = PreviewLine(room: string, kind: string, notes: string)

  /** `type || circuit_type || 'Unknown'`, `notes || 'No notes'`. */
  function CircuitLine(c: UiCircuit, rooms: seq<UiRoom>): (r: PreviewLine)
    ensures r.room == GetRoomName(c.roomId, rooms)
    ensures r.kind != "" && r.notes != ""
    ensures TruthyText(c.circuitType) ==> r.kind == c.circuitType.value
    ensures TruthyText(c.notes) ==> r.notes == c.notes.value
    ensures !TruthyText(c.circuitType) && TruthyText(c.legacyType) ==> r.kind == c.legacyType.value
    ensures !TruthyText(c.circuitType) && !TruthyText(c.legacyType) ==> r.kind == "Unknown"
    ensures !TruthyText(c.notes) ==> r.notes == "No notes"
  {
    PreviewLine(GetRoomName(c.roomId, rooms), TextOr(c.circuitType, TextOr(c.legacyType, "Unknown")),
                TextOr(c.notes, "No notes"))
  }

  function CircuitLines(cs: seq<UiCircuit>, rooms: seq<UiRoom>): (r: seq<PreviewLine>)
    ensures |r| == |cs| && forall i :: 0 <= i < |cs| ==> r[i] == CircuitLine(cs[i], rooms)
  {
    seq(|cs|, i requires 0 <= i < |cs| => CircuitLine(cs[i], rooms))
  }

  /** What the preview says about the destination. */
  datatype Destination =
    | Swap(lines: seq<PreviewLine>)   // occupied: these circuits come back to the source
    | EmptyBreaker                    // a breaker without circuits in that slot
    | EmptyPosition                   // no breaker at all

  /** The content of `buildPreviewText`, without its markup; no source
      line means "No circuits to move". */
  datatype Preview = Preview(
    fromPanel: string, fromPosition: string, sourceLines: seq<PreviewLine>,
    toPanel: string, toPosition: string, destination: Destination)

  datatype PreviewResult = NoPreview | PreviewFailed | Shown(preview: Preview)

  /** `generateMovePreview()` with `buildPreviewText`: `destBreakers` is
      what the destination panel's breaker request returned, `cached` the
      values of the global circuit cache. A missing panel or source breaker
      makes the preview fail, as reading a field of null does. */
  function MovePreviewOf(s: MoveState, currentPanel: Option<UiPanel>, destBreakers: seq<UiBreaker>,
                         cached: seq<UiCircuit>, rooms: seq<UiRoom>): (r: PreviewResult)
    requires Consistent(s)
    ensures r.NoPreview? <==> !TruthyInt(s.destinationPosition)
    ensures r.PreviewFailed? <==> (TruthyInt(s.destinationPosition) &&
      (s.destinationPanel.None? || s.sourceBreaker.None? || currentPanel.None?))
    ensures r.Shown? ==>
      var found := FindDestinationBreaker(destBreakers, s.destinationPosition.value, s.destinationSlot.value);
      var destCircuits := if found.Some? then SlotCircuits(cached, found.value.id, s.destinationSlot.value) else [];
      (r.preview.destination.Swap? <==> found.Some? && destCircuits != []) &&
      (r.preview.destination.EmptyBreaker? <==> found.Some? && destCircuits == []) &&
      (r.preview.destination.EmptyPosition? <==> found.None?) &&
      (r.preview.destination.Swap? ==> r.preview.destination.lines == CircuitLines(destCircuits, rooms)) &&
      r.preview.sourceLines ==
        CircuitLines(SlotCircuits(cached, s.sourceBreaker.value.id, s.sourceSlot.value), rooms) &&
      r.preview.fromPosition == PositionText(s.sourcePosition.value, s.sourceSlot.value) &&
      r.preview.toPosition == PositionText(s.destinationPosition.value, s.destinationSlot.value) &&
      r.preview.fromPanel == currentPanel.value.name && r.preview.toPanel == s.destinationPanel.value.name
  {
    if !TruthyInt(s.destinationPosition) then NoPreview
    else if s.destinationPanel.None? || s.sourceBreaker.None? || currentPanel.None? then PreviewFailed
    else
      var position := s.destinationPosition.value;
      var slot := s.destinationSlot.value;
      var found := FindDestinationBreaker(destBreakers, position, slot);
      var sourceCircuits := SlotCircuits(cached, s.sourceBreaker.value.id, s.sourceSlot.value);
      var destCircuits := if found.Some? then SlotCircuits(cached, found.value.id, slot) else [];
      var destination :=
        if found.Some? && |destCircuits| > 0 then Swap(CircuitLines(destCircuits, rooms))
        else if found.Some? then EmptyBreaker
        else EmptyPosition;
      Shown(Preview(currentPanel.value.name, PositionText(s.sourcePosition.value, s.sourceSlot.value),
                    CircuitLines(sourceCircuits, rooms), s.destinationPanel.value.name,
                    PositionText(position, slot), destination))
  }

  /** Every line of a swap preview is a circuit of the breaker found at the
      destination, in the selected slot. */
  lemma SwapLinesAreDestinationCircuits(s: MoveState, currentPanel: Option<UiPanel>, destBreakers: seq<UiBreaker>,
                                        cached: seq<UiCircuit>, rooms: seq<UiRoom>, i: int)
    requires Consistent(s)
    requires MovePreviewOf(s, currentPanel, destBreakers, cached, rooms).Shown?
    requires MovePreviewOf(s, currentPanel, destBreakers, cached, rooms).preview.destination.Swap?
    requires 0 <= i < |MovePreviewOf(s, currentPanel, destBreakers, cached, rooms).preview.destination.lines|
    ensures exists b, c :: (b in destBreakers && b.position == s.destinationPosition.value &&
      SlotOf(b) == s.destinationSlot.value && c in cached && b.id == Some(c.breakerId) &&
      TextOr(c.slotPosition, "single") == s.destinationSlot.value &&
      MovePreviewOf(s, currentPanel, destBreakers, cached, rooms).preview.destination.lines[i] == CircuitLine(c, rooms))
  {
    var slot := s.destinationSlot.value;
    var found := FindDestinationBreaker(destBreakers, s.destinationPosition.value, slot);
    var destCircuits := SlotCircuits(cached, found.value.id, slot);
    assert destCircuits[i] in destCircuits;
  }

  // ---------------------------------------------------------------------------
  // Executing the move
  // ---------------------------------------------------------------------------

  /** The body of the `moveBreaker` request. */
  datatype MovePayload = MovePayload(
    sourceBreakerId: Option<int>, sourcePanelId: int, sourcePosition: int, sourceSlot: string,
    destinationPanelId: int, destinationPosition: int, destinationSlot: string)

  datatype ExecuteOutcome = NeedDestination | MoveFailed | Send(payload: MovePayload)

  /** The guard and payload of `executeMove()`: no request without a
      destination position; a missing panel or source breaker fails as
      reading a field of null does. */
  function MovePayloadOf(s: MoveState, currentPanel: Option<UiPanel>): (r: ExecuteOutcome)
    requires Consistent(s)
    ensures r.NeedDestination? <==> !TruthyInt(s.destinationPosition)
    ensures r.Send? <==> (TruthyInt(s.destinationPosition) && s.sourceBreaker.Some? &&
      currentPanel.Some? && s.destinationPanel.Some?)
    ensures r.Send? ==>
      r.payload.sourceBreakerId == s.sourceBreaker.value.id &&
      r.payload.sourcePanelId == currentPanel.value.id &&
      r.payload.sourcePosition == s.sourceBreaker.value.position &&
      r.payload.sourceSlot == SlotOf(s.sourceBreaker.value) &&
      r.payload.destinationPanelId == s.destinationPanel.value.id &&
      Some(r.payload.destinationPosition) == s.destinationPosition &&
      Some(r.payload.destinationSlot) == s.destinationSlot
  {
    if !TruthyInt(s.destinationPosition) then NeedDestination
    else if s.sourceBreaker.None? || currentPanel.None? || s.destinationPanel.None? then MoveFailed
    else
      Send(MovePayload(s.sourceBreaker.value.id, currentPanel.value.id, s.sourcePosition.value,
                       s.sourceSlot.value, s.destinationPanel.value.id, s.destinationPosition.value,
                       s.destinationSlot.value))
  }

  /** The fields of the payload the move route reads. */
  function MoveRequestOf(p: MovePayload): Routes.MoveRequest {
    Routes.MoveRequest(p.sourceBreakerId, Some(p.destinationPanelId), Some(p.destinationPosition),
                       Some(p.destinationSlot))
  }

  /** A request the dialog sends passes the route's required-field check
      exactly when the source breaker has been saved and the destination
      panel id is not 0, and the route moves to the selected slot. */
  lemma SentRequestHasRequiredFields(s: MoveState, currentPanel: Option<UiPanel>)
    requires Consistent(s)
    requires MovePayloadOf(s, currentPanel).Send?
    ensures var req := MoveRequestOf(MovePayloadOf(s, currentPanel).payload);
      (Routes.HasRequiredFields(req) <==> TruthyInt(s.sourceBreaker.value.id) && s.destinationPanel.value.id != 0) &&
      Routes.DestinationSlot(req) == TextOr(s.destinationSlot, "single")
  {
  }

  /** The dialog, opened on a breaker while `origin` is shown, after
      loading panel `dest` (as intended when `intended`, else as written)
      and selecting a position and slot. */
  function ChosenMove(s: MoveState, origin: UiPanel, dest: UiPanel, position: int, slot: string,
                      intended: bool): Dialog
  {
    var d := if intended then LoadIntended(Dialog(s, Some(origin)), Some(dest.id), Some(dest))
             else LoadAsWritten(Dialog(s, Some(origin)), Some(dest.id), Some(dest));
    d.(state := d.state.(destinationPosition := Some(position), destinationSlot := Some(slot)))
  }

  /** As written, choosing panel `dest` in the dialog makes it the current
      panel, so the preview's "From:" and the request's source panel are
      the destination, whichever panel the breaker is on. */
  lemma ChosenPanelBecomesSource(s: MoveState, origin: UiPanel, dest: UiPanel, position: int, slot: string,
                                 destBreakers: seq<UiBreaker>, cached: seq<UiCircuit>, rooms: seq<UiRoom>)
    requires Consistent(s) && s.sourceBreaker.Some?
    requires dest.id != 0 && position != 0
    ensures var d := ChosenMove(s, origin, dest, position, slot, false);
      var preview := MovePreviewOf(d.state, d.currentPanel, destBreakers, cached, rooms);
      var outcome := MovePayloadOf(d.state, d.currentPanel);
      preview.Shown? && preview.preview.fromPanel == dest.name && preview.preview.toPanel == dest.name &&
      outcome.Send? && outcome.payload.sourcePanelId == dest.id && outcome.payload.destinationPanelId == dest.id
  {
  }

  /** As intended, the source of the preview and of the request stays the
      panel that was shown when the dialog opened. */
  lemma ChosenPanelKeepsSource(s: MoveState, origin: UiPanel, dest: UiPanel, position: int, slot: string,
                               destBreakers: seq<UiBreaker>, cached: seq<UiCircuit>, rooms: seq<UiRoom>)
    requires Consistent(s) && s.sourceBreaker.Some?
    requires dest.id != 0 && position != 0
    ensures var d := ChosenMove(s, origin, dest, position, slot, true);
      var preview := MovePreviewOf(d.state, d.currentPanel, destBreakers, cached, rooms);
      var outcome := MovePayloadOf(d.state, d.currentPanel);
      preview.Shown? && preview.preview.fromPanel == origin.name && preview.preview.toPanel == dest.name &&
      outcome.Send? && outcome.payload.sourcePanelId == origin.id && outcome.payload.destinationPanelId == dest.id
  {
  }

  // ---------------------------------------------------------------------------
  // The dialog object
  // ---------------------------------------------------------------------------

  /** The move dialog of the application `app`. */
  class MoveManager {
    const app: BreakerPanelApp
    var sourceBreaker: Option<UiBreaker>
    var sourcePosition: Option<int>
    var sourceSlot: Option<string>
    var destinationPanel: Option<UiPanel>
    var destinationPosition: Option<int>
    var destinationSlot: Option<string>

    function State(): MoveState
      reads this
    {
      MoveState(sourceBreaker, sourcePosition, sourceSlot, destinationPanel, destinationPosition, destinationSlot)
    }

    predicate Valid()
      reads this
    {
      Consistent(State())
    }

    constructor(app: BreakerPanelApp)
      ensures this.app == app && State() == Cleared && Valid()
    {
      this.app := app;
      sourceBreaker := None;
      sourcePosition := None;
      sourceSlot := None;
      destinationPanel := None;
      destinationPosition := None;
      destinationSlot := None;
    }

    /** Sets the six fields. */
    method SetState(s: MoveState)
      modifies this
      ensures State() == s
    {
      sourceBreaker := s.sourceBreaker;
      sourcePosition := s.sourcePosition;
      sourceSlot := s.sourceSlot;
      destinationPanel := s.destinationPanel;
      destinationPosition := s.destinationPosition;
      destinationSlot := s.destinationSlot;
    }

    /** `openMoveModal()`; `error` is set when there was no breaker to move,
        `fetched` is what the request for the current panel returned. */
    method OpenMoveModal(fetched: Option<UiPanel>) returns (error: bool)
      requires Valid()
      modifies this, app
      ensures Valid()
      ensures Step(State(), app.currentBreaker, error) ==
        OpenMoveDialog(old(State()), old(app.currentBreaker), old(app.currentPanel), fetched)
      ensures app.currentPanel ==
        if old(app.currentBreaker).Some? && old(app.currentPanel).Some? then
          LoadAsWritten(Dialog(old(State()), old(app.currentPanel)), Some(old(app.currentPanel).value.id), fetched).currentPanel
        else old(app.currentPanel)
      ensures app.allPanels == old(app.allPanels)
      ensures app.allRooms == old(app.allRooms) && app.allCircuitData == old(app.allCircuitData)
      ensures app.globalCircuitCache == old(app.globalCircuitCache) && app.currentSort == old(app.currentSort)
    {
      if app.currentBreaker.None? {
        return true;
      }
      var b := app.currentBreaker.value;
      sourceBreaker := Some(b);
      sourcePosition := Some(b.position);
      sourceSlot := Some(TextOr(b.slotPosition, "single"));
      app.currentBreaker := None;
      error := false;
      if app.currentPanel.Some? {
        LoadDestinationPanel(Some(app.currentPanel.value.id), fetched);
      }
    }

    /** `loadDestinationPanel(panelId)` with `renderDestinationPanel()`:
        `fetched` is the panel the request returned, absent when it failed;
        an empty id changes nothing. The destination renderer shares `app`,
        so a loaded panel also becomes the application's current panel. */
    method LoadDestinationPanel(panelId: Option<int>, fetched: Option<UiPanel>)
      requires Valid()
      modifies this, app
      ensures Valid()
      ensures Dialog(State(), app.currentPanel) ==
        LoadAsWritten(Dialog(old(State()), old(app.currentPanel)), panelId, fetched)
      ensures app.currentBreaker == old(app.currentBreaker) && app.allPanels == old(app.allPanels)
      ensures app.allRooms == old(app.allRooms) && app.allCircuitData == old(app.allCircuitData)
      ensures app.globalCircuitCache == old(app.globalCircuitCache) && app.currentSort == old(app.currentSort)
    {
      if TruthyInt(panelId) && fetched.Some? {
        destinationPanel := fetched;
        app.currentPanel := destinationPanel;
      }
    }

    /** `selectDestination(position, slot)`. */
    method SelectDestination(position: int, slot: string)
      requires Valid()
      modifies this
      ensures Valid()
      ensures State() == old(State()).(destinationPosition := Some(position), destinationSlot := Some(slot))
    {
      destinationPosition := Some(position);
      destinationSlot := Some(slot);
    }

    /** `resetMoveState()` (and `closeMoveModal()`, which only adds hiding
        the dialog). */
    method ResetMoveState()
      modifies this
      ensures State() == Cleared && Valid()
    {
      SetState(Cleared);
    }

    /** `cancelMove()` as written: `closeMoveModal()` clears the state
        before `sourceBreaker` is tested, so the editor never reopens;
        `reopened` says whether it did. */
    method CancelMove() returns (reopened: bool)
      modifies this, app
      ensures Step(State(), app.currentBreaker, reopened) == CancelAsWritten(old(State()), old(app.currentBreaker))
      ensures Valid()
      ensures app.currentPanel == old(app.currentPanel) && app.allPanels == old(app.allPanels)
      ensures app.allRooms == old(app.allRooms) && app.allCircuitData == old(app.allCircuitData)
      ensures app.globalCircuitCache == old(app.globalCircuitCache) && app.currentSort == old(app.currentSort)
    {
      ResetMoveState();
      reopened := false;
      if sourceBreaker.Some? {
        // cleared just above: the branch that would reopen the editor never runs
        assert false;
      }
    }

    /** `executeMove()`: `moved` is whether the move request succeeded.
        After a successful move the dialog is cleared and no breaker is
        current; otherwise nothing changes. */
    method ExecuteMove(moved: bool) returns (outcome: ExecuteOutcome)
      requires Valid()
      modifies this, app
      ensures Valid()
      ensures outcome == MovePayloadOf(old(State()), old(app.currentPanel))
      ensures outcome.Send? && moved ==> State() == Cleared && app.currentBreaker == None
      ensures !(outcome.Send? && moved) ==> State() == old(State()) && app.currentBreaker == old(app.currentBreaker)
      ensures app.currentPanel == old(app.currentPanel) && app.allPanels == old(app.allPanels)
      ensures app.allRooms == old(app.allRooms) && app.allCircuitData == old(app.allCircuitData)
      ensures app.globalCircuitCache == old(app.globalCircuitCache) && app.currentSort == old(app.currentSort)
    {
      if !TruthyInt(destinationPosition) {
        return NeedDestination;
      }
      if sourceBreaker.None? || app.currentPanel.None? || destinationPanel.None? {
        return MoveFailed;
      }
      outcome := Send(MovePayload(sourceBreaker.value.id, app.currentPanel.value.id, sourcePosition.value,
                                  sourceSlot.value, destinationPanel.value.id, destinationPosition.value,
                                  destinationSlot.value));
      if moved {
        ResetMoveState();
        app.currentBreaker := None;
      }
    }
  }
}
