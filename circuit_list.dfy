/** The circuit list view `CircuitListManager`: which rows the filters let
    through, the order the sortable columns put them in, the options of the
    room filter and the text of the breaker-number column. */
module CircuitListing {
  import opened Common
  import opened ClientData
  import opened PanelApp

  // ---------------------------------------------------------------------------
  // Filtering
  // ---------------------------------------------------------------------------

  /** The values `getFilterValues()` reads from the form. */
  datatype Filters = Filters(
    searchTerm: string, room: string, circuitType: string,
    critical: bool, monitor: bool, notConfirmed: bool)

  /** The search box's value as the filter uses it: lower-cased, so that a
      second lower-casing (of the searched text) cannot change it. */
  function SearchTerm(input: string): (r: string)
    ensures |r| == |input|
    ensures forall i :: 0 <= i < |input| ==> r[i] == LowerChar(input[i])
    ensures ToLower(r) == r
  {
    ToLowerIdempotent(input);
    ToLower(input)
  }

  /** The fields the text search looks in, in the order they are joined. */
  function SearchFields(row: CircuitRow): seq<string> {
    [TextOr(row.breaker.labelText, ""), TextOr(row.circuit.room, ""), TextOr(row.circuit.notes, ""),
     TextOr(row.circuit.circuitType, ""), IntToString(row.breaker.position)]
  }

  /** The searchable text of a row: its fields joined with spaces, lower-cased. */
  function SearchText(row: CircuitRow): string {
    ToLower(Join(SearchFields(row), " "))
  }

  /** The callback of `filterCircuitData`: every filter that is set must
      accept the row. */
  predicate Matches(row: CircuitRow, f: Filters) {
    (f.searchTerm != "" ==> Contains(SearchText(row), f.searchTerm)) &&
    (f.room != "" ==> row.circuit.room == Some(f.room)) &&
    (f.circuitType != "" ==> row.circuit.circuitType == Some(f.circuitType)) &&
    (f.critical ==> row.breaker.critical) &&
    (f.monitor ==> row.breaker.monitor) &&
    (f.notConfirmed ==> !row.breaker.confirmed)
  }

  /** `filterCircuitData(filters)` over `allCircuitData`. */
  function FilterCircuitData(data: seq<CircuitRow>, f: Filters): (r: seq<CircuitRow>)
    ensures forall x :: x in r <==> x in data && Matches(x, f)
    ensures |r| <= |data|
    decreases |data|
  {
    if data == [] then []
    else
      var rest := FilterCircuitData(data[1..], f);
      assert forall x :: x in data <==> x == data[0] || x in data[1..];
      if Matches(data[0], f) then [data[0]] + rest else rest
  }

  /** Filtering keeps the list's order: it distributes over concatenation. */
  lemma {:induction false} FilterKeepsOrder(d1: seq<CircuitRow>, d2: seq<CircuitRow>, f: Filters)
    ensures FilterCircuitData(d1 + d2, f) == FilterCircuitData(d1, f) + FilterCircuitData(d2, f)
    decreases |d1|
  {
    if d1 == [] {
      assert d1 + d2 == d2;
    } else {
      assert (d1 + d2)[0] == d1[0];
      assert (d1 + d2)[1..] == d1[1..] + d2;
      FilterKeepsOrder(d1[1..], d2, f);
    }
  }

  /** Filtering an already filtered list changes nothing. */
  lemma {:induction false} FilterIdempotent(data: seq<CircuitRow>, f: Filters)
    ensures FilterCircuitData(FilterCircuitData(data, f), f) == FilterCircuitData(data, f)
    decreases |data|
  {
    if data != [] {
      FilterIdempotent(data[1..], f);
    }
  }

  const NoFilters := Filters("", "", "", false, false, false)

  /** With every filter cleared the whole list is shown. */
  lemma {:induction false} NoFiltersShowEverything(data: seq<CircuitRow>)
    ensures FilterCircuitData(data, NoFilters) == data
    decreases |data|
  {
    if data != [] {
      NoFiltersShowEverything(data[1..]);
    }
  }

  /** Joining five texts puts the separator between each pair. */
  lemma JoinFive(a: string, b: string, c: string, d: string, e: string, sep: string)
    ensures Join([a, b, c, d, e], sep) == a + sep + b + sep + c + sep + d + sep + e
  {
    assert [a, b, c, d, e][1..] == [b, c, d, e];
    assert [b, c, d, e][1..] == [c, d, e];
    assert [c, d, e][1..] == [d, e];
    assert [d, e][1..] == [e];
    assert Join([d, e], sep) == d + sep + e;
    assert Join([c, d, e], sep) == c + sep + (d + sep + e);
    assert Join([b, c, d, e], sep) == b + sep + (c + sep + (d + sep + e));
  }

  lemma JoinSearchFields(row: CircuitRow)
    ensures var fs := SearchFields(row);
      Join(fs, " ") == fs[0] + " " + fs[1] + " " + fs[2] + " " + fs[3] + " " + fs[4]
  {
    var fs := SearchFields(row);
    assert fs == [fs[0], fs[1], fs[2], fs[3], fs[4]];
    JoinFive(fs[0], fs[1], fs[2], fs[3], fs[4], " ");
  }

  lemma ToLowerDigits(s: string)
    requires forall i :: 0 <= i < |s| ==> IsDigit(s[i]) || s[i] == '-'
    ensures ToLower(s) == s
  {
  }

  /** Searching for a breaker's number finds its rows. */
  lemma SearchFindsPosition(row: CircuitRow)
    ensures Contains(SearchText(row), IntToString(row.breaker.position))
  {
    var fs := SearchFields(row);
    var prefix := fs[0] + " " + fs[1] + " " + fs[2] + " " + fs[3] + " ";
    JoinSearchFields(row);
    assert Join(fs, " ") == prefix + fs[4];
    ToLowerAppend(prefix, fs[4]);
    var p := row.breaker.position;
    if p < 0 {
      assert IntToString(p) == "-" + NatToString(-p);
    }
    ToLowerDigits(fs[4]);
    ContainsSuffix(ToLower(prefix), fs[4]);
  }

  /** Searching for a breaker's label, in any case, finds its rows. */
  lemma SearchFindsLabel(row: CircuitRow)
    ensures Contains(SearchText(row), ToLower(TextOr(row.breaker.labelText, "")))
  {
    var fs := SearchFields(row);
    assert Join(fs, " ") == fs[0] + " " + Join(fs[1..], " ");
    LowerPrefixFound(fs[0], " ", Join(fs[1..], " "));
  }

  /** The lower-cased front of a text is found in the lower-cased text. */
  lemma LowerPrefixFound(a: string, sep: string, rest: string)
    ensures Contains(ToLower(a + sep + rest), ToLower(a))
  {
    ToLowerAppend(a + sep, rest);
    ToLowerAppend(a, sep);
    assert ToLower(a + sep + rest) == ToLower(a) + (ToLower(sep) + ToLower(rest));
    ContainsPrefix(ToLower(a), ToLower(sep) + ToLower(rest));
  }

  // ---------------------------------------------------------------------------
  // Sorting
  // ---------------------------------------------------------------------------

  /** A value `getSortValues` returns: a number or a text. */
  datatype SortValue = Num(n: int) | Text(s: string)

  /** `getLinkedPanelName(circuit)`: the lower-cased name of the panel a
      subpanel circuit feeds, or the empty text. */
  function GetLinkedPanelName(c: UiCircuit, panels: seq<UiPanel>): (r: string)
    ensures !FeedsSubpanel(c) ==> r == ""
    ensures FeedsSubpanel(c) && (forall i :: 0 <= i < |panels| ==> panels[i].id != c.subpanelId.value) ==> r == ""
    ensures forall i :: (0 <= i < |panels| && FeedsSubpanel(c) && panels[i].id == c.subpanelId.value &&
      (forall j :: 0 <= j < i ==> panels[j].id != panels[i].id)) ==> r == ToLower(panels[i].name)
  {
    if FeedsSubpanel(c) then
      var k := FindPanelIndex(panels, c.subpanelId);
      if k >= 0 then ToLower(panels[k].name) else ""
    else ""
  }

  /** The value a row sorts by in `column`. */
  function SortValueOf(row: CircuitRow, column: string, panels: seq<UiPanel>): SortValue {
    if column == "breaker" then Num(row.breaker.position)
    else if column == "label" then Text(ToLower(TextOr(row.breaker.labelText, "")))
    else if column == "amperage" then Num(if TruthyInt(row.breaker.amperage) then row.breaker.amperage.value else 0)
    else if column == "room" then Text(ToLower(TextOr(row.circuit.room, "")))
    else if column == "type" then Text(ToLower(TextOr(row.circuit.circuitType, "")))
    else if column == "notes" then Text(ToLower(TextOr(row.circuit.notes, "")))
    else if column == "flags" then Num((if row.breaker.critical then 2 else 0) + (if row.breaker.monitor then 1 else 0))
    else if column == "linked" then Text(GetLinkedPanelName(row.circuit, panels))
    else Text("")
  }

  predicate NumericColumn(column: string) {
    column == "breaker" || column == "amperage" || column == "flags"
  }

  /** `getSortValues(a, b, column)`: both values are numbers in the
      numeric columns and texts in the others; the flags count critical
      twice as heavily as monitored. */
  function GetSortValues(a: CircuitRow, b: CircuitRow, column: string, panels: seq<UiPanel>): (r: (SortValue, SortValue))
    ensures r.0.Num? <==> NumericColumn(column)
    ensures r.1.Num? <==> NumericColumn(column)
    ensures column == "flags" ==> 0 <= r.0.n <= 3 && 0 <= r.1.n <= 3
    ensures column == "flags" && a.breaker.critical && !b.breaker.critical ==> r.0.n > r.1.n
    ensures column == "flags" ==>
      r.0.n == 2 * (if a.breaker.critical then 1 else 0) + (if a.breaker.monitor then 1 else 0) &&
      r.1.n == 2 * (if b.breaker.critical then 1 else 0) + (if b.breaker.monitor then 1 else 0)
    ensures column == "breaker" ==> r.0.n == a.breaker.position && r.1.n == b.breaker.position
    // A missing or zero amperage sorts as 0.
    ensures column == "amperage" ==>
      r.0.n == (if TruthyInt(a.breaker.amperage) then a.breaker.amperage.value else 0) &&
      r.1.n == (if TruthyInt(b.breaker.amperage) then b.breaker.amperage.value else 0)
    // Text columns compare lower-cased, a missing value as "".
    ensures column == "label" ==>
      r.0.s == ToLower(TextOr(a.breaker.labelText, "")) && r.1.s == ToLower(TextOr(b.breaker.labelText, ""))
    ensures column == "room" ==>
      r.0.s == ToLower(TextOr(a.circuit.room, "")) && r.1.s == ToLower(TextOr(b.circuit.room, ""))
    ensures column == "type" ==>
      r.0.s == ToLower(TextOr(a.circuit.circuitType, "")) && r.1.s == ToLower(TextOr(b.circuit.circuitType, ""))
    ensures column == "notes" ==>
      r.0.s == ToLower(TextOr(a.circuit.notes, "")) && r.1.s == ToLower(TextOr(b.circuit.notes, ""))
    ensures column == "linked" ==>
      r.0.s == GetLinkedPanelName(a.circuit, panels) && r.1.s == GetLinkedPanelName(b.circuit, panels)
    // Any other column leaves every row equal.
    ensures !NumericColumn(column) && column !in ["label", "room", "type", "notes", "linked"] ==>
      r == (Text(""), Text(""))
  {
    (SortValueOf(a, column, panels), SortValueOf(b, column, panels))
  }

  /** `value.toString()`. */
  function ValueText(v: SortValue): string {
    if v.Num? then IntToString(v.n) else v.s
  }

  /** The comparison of `sortCircuitData`: a difference of numbers, or
      `localeCompare` of texts. */
  function CompareValues(x: SortValue, y: SortValue): int {
    if x.Num? && y.Num? then x.n - y.n else LexCompare(ValueText(x), ValueText(y))
  }

  /** The comparator of `sortCircuitData`, negated for a descending sort. */
  function RowCompare(sort: SortState, panels: seq<UiPanel>, a: CircuitRow, b: CircuitRow): int {
    var values := GetSortValues(a, b, sort.column, panels);
    var c := CompareValues(values.0, values.1);
    if sort.direction == "asc" then c else -c
  }

  predicate RowBefore(sort: SortState, panels: seq<UiPanel>, a: CircuitRow, b: CircuitRow) {
    RowCompare(sort, panels, a, b) <= 0
  }

  /** What "a sorts before b" means for each kind of column and direction. */
  lemma RowBeforeMeaning(sort: SortState, panels: seq<UiPanel>, a: CircuitRow, b: CircuitRow)
    ensures var va := SortValueOf(a, sort.column, panels);
      var vb := SortValueOf(b, sort.column, panels);
      RowBefore(sort, panels, a, b) <==>
        if NumericColumn(sort.column) then (if sort.direction == "asc" then va.n <= vb.n else vb.n <= va.n)
        else (if sort.direction == "asc" then LexLe(va.s, vb.s) else LexLe(vb.s, va.s))
  {
    var va := SortValueOf(a, sort.column, panels);
    var vb := SortValueOf(b, sort.column, panels);
    var values := GetSortValues(a, b, sort.column, panels);
    if !NumericColumn(sort.column) {
      LexCompareSign(va.s, vb.s);
    }
  }

  lemma RowOrderIsTotalPreorder(sort: SortState, panels: seq<UiPanel>)
    ensures IsTotalPreorder((a: CircuitRow, b: CircuitRow) => RowBefore(sort, panels, a, b))
  {
    forall a: CircuitRow, b: CircuitRow ensures RowBefore(sort, panels, a, b) || RowBefore(sort, panels, b, a) {
      RowBeforeMeaning(sort, panels, a, b);
      RowBeforeMeaning(sort, panels, b, a);
      if !NumericColumn(sort.column) {
        LexLeTotal(SortValueOf(a, sort.column, panels).s, SortValueOf(b, sort.column, panels).s);
      }
    }
    forall a: CircuitRow, b: CircuitRow, c: CircuitRow | RowBefore(sort, panels, a, b) && RowBefore(sort, panels, b, c)
      ensures RowBefore(sort, panels, a, c)
    {
      RowBeforeMeaning(sort, panels, a, b);
      RowBeforeMeaning(sort, panels, b, c);
      RowBeforeMeaning(sort, panels, a, c);
      var va := SortValueOf(a, sort.column, panels);
      var vb := SortValueOf(b, sort.column, panels);
      var vc := SortValueOf(c, sort.column, panels);
      if !NumericColumn(sort.column) {
        if sort.direction == "asc" {
          LexLeTransitive(va.s, vb.s, vc.s);
        } else {
          LexLeTransitive(vc.s, vb.s, va.s);
        }
      }
    }
  }

  /** The sort state after a click on `column`'s header in
      `sortCircuitList`: the column becomes the sort column, and the order
      is descending only after a click on the column already sorted
      ascending. */
  function NextSort(s: SortState, column: string): (r: SortState)
    ensures r.column == column
    ensures r.direction == "asc" || r.direction == "desc"
    ensures r.direction == "desc" <==> s.column == column && s.direction == "asc"
  {
    if s.column == column then SortState(column, if s.direction == "asc" then "desc" else "asc")
    else SortState(column, "asc")
  }

  /** Two clicks on the sorted column restore its order. */
  lemma NextSortTwiceRestores(s: SortState)
    requires s.direction == "asc" || s.direction == "desc"
    ensures NextSort(NextSort(s, s.column), s.column) == s
  {
  }

  /** The list manager; `app` is the application whose data it sorts. */
  class CircuitListManager {
    const app: BreakerPanelApp

    constructor(app: BreakerPanelApp)
      ensures this.app == app
    {
      this.app := app;
    }

    /** `sortCircuitData()`: `allCircuitData` is sorted in place by the
        current sort column and direction. */
    method SortCircuitData()
      modifies app
      ensures multiset(app.allCircuitData) == multiset(old(app.allCircuitData))
      ensures forall i, j :: 0 <= i < j < |app.allCircuitData| ==>
        RowBefore(app.currentSort, app.allPanels, app.allCircuitData[i], app.allCircuitData[j])
      ensures app.currentPanel == old(app.currentPanel) && app.allPanels == old(app.allPanels)
      ensures app.allRooms == old(app.allRooms) && app.currentBreaker == old(app.currentBreaker)
      ensures app.globalCircuitCache == old(app.globalCircuitCache) && app.currentSort == old(app.currentSort)
    {
      RowOrderIsTotalPreorder(app.currentSort, app.allPanels);
      var sort := app.currentSort;
      var panels := app.allPanels;
      var sorted := InsertionSort(app.allCircuitData, (a: CircuitRow, b: CircuitRow) => RowBefore(sort, panels, a, b));
      app.allCircuitData := sorted;
    }

    /** `sortCircuitList(column)`: the header click updates the sort state
        and re-sorts the list. */
    method SortCircuitList(column: string)
      modifies app
      ensures app.currentSort == NextSort(old(app.currentSort), column)
      ensures multiset(app.allCircuitData) == multiset(old(app.allCircuitData))
      ensures forall i, j :: 0 <= i < j < |app.allCircuitData| ==>
        RowBefore(app.currentSort, app.allPanels, app.allCircuitData[i], app.allCircuitData[j])
      ensures app.currentPanel == old(app.currentPanel) && app.allPanels == old(app.allPanels)
      ensures app.allRooms == old(app.allRooms) && app.currentBreaker == old(app.currentBreaker)
      ensures app.globalCircuitCache == old(app.globalCircuitCache)
    {
      app.currentSort := NextSort(app.currentSort, column);
      SortCircuitData();
    }

    /** `resetSortHeaders()`: back to ascending by breaker number. */
    method ResetSortHeaders()
      modifies app
      ensures app.currentSort == DefaultSort
      ensures app.currentPanel == old(app.currentPanel) && app.allPanels == old(app.allPanels)
      ensures app.allRooms == old(app.allRooms) && app.currentBreaker == old(app.currentBreaker)
      ensures app.globalCircuitCache == old(app.globalCircuitCache) && app.allCircuitData == old(app.allCircuitData)
    {
      app.currentSort := DefaultSort;
    }
  }

  // ---------------------------------------------------------------------------
  // Room filter options
  // ---------------------------------------------------------------------------

  /** `room && room.trim() !== ''`: present and not all white space, which
      is what a non-empty trim means (`TrimEmptyIffAllSpace`). */
  predicate ListableRoom(room: Option<string>) {
    TruthyText(room) && !AllSpace(room.value)
  }

  /** The room filter's test is the source's `room.trim() !== ''` test. */
  lemma ListableRoomIsTrimTest(room: Option<string>)
    ensures ListableRoom(room) <==> TruthyText(room) && Trim(room.value) != ""
  {
    if room.Some? {
      TrimEmptyIffAllSpace(room.value);
    }
  }

  /** The rooms of the rows that pass `ListableRoom`, in row order, untrimmed. */
  function NamedRooms(data: seq<CircuitRow>): (r: seq<string>)
    ensures forall x :: x in r <==>
      exists k :: 0 <= k < |data| && ListableRoom(data[k].circuit.room) && data[k].circuit.room.value == x
    decreases |data|
  {
    if data == [] then []
    else
      var init := data[..|data| - 1];
      var last := data[|data| - 1];
      var rest := NamedRooms(init);
      assert forall k :: 0 <= k < |init| ==> init[k] == data[k];
      if ListableRoom(last.circuit.room) then rest + [last.circuit.room.value] else rest
  }

  /** The options of `populateRoomFilter()`: every room some row names, once
      each, in ascending order; blank rooms are left out. */
  method PopulateRoomFilter(data: seq<CircuitRow>) returns (rooms: seq<string>)
    ensures forall x :: x in rooms <==>
      exists k :: 0 <= k < |data| && ListableRoom(data[k].circuit.room) && data[k].circuit.room.value == x
    ensures NoDuplicates(rooms)
    ensures forall i, j :: 0 <= i < j < |rooms| ==> LexLe(rooms[i], rooms[j])
  {
    var unique := Dedup(NamedRooms(data));
    LexLeIsTotalPreorder();
    rooms := InsertionSort(unique, (a: string, b: string) => LexLe(a, b));
    NoDuplicatesPermutation(unique, rooms);
    assert forall x :: x in rooms <==> x in multiset(rooms);
    assert forall x :: x in unique <==> x in multiset(unique);
  }

  // ---------------------------------------------------------------------------
  // The breaker-number column
  // ---------------------------------------------------------------------------

  /** The breaker-number cell of a row: the number text, the pole or tandem
      indicator and the label shown after a dash. */
  datatype NumberCell = NumberCell(number: string, indicator: string, labelSuffix: string)

  /** The breaker-number cell of `createCircuitRow`. */
  function BreakerNumberCell(b: UiBreaker): (r: NumberCell)
    ensures r.indicator == "2P" <==> b.breakerType == Some("double_pole")
    ensures r.indicator == "T" <==> b.breakerType == Some("tandem")
    ensures |IntToString(b.position)| <= |r.number| && r.number[..|IntToString(b.position)|] == IntToString(b.position)
    ensures r.labelSuffix != "" <==> TruthyText(b.labelText)
    ensures TruthyText(b.labelText) ==> r.labelSuffix == " — " + b.labelText.value
    ensures b.breakerType == Some("double_pole") ==>
      r.number == IntToString(b.position) + "-" + IntToString(b.position + 2)
    ensures b.breakerType != Some("double_pole") && b.breakerType != Some("tandem") ==>
      r.number == IntToString(b.position) && r.indicator == ""
  {
    var p := IntToString(b.position);
    var suffix := if TruthyText(b.labelText) then " — " + b.labelText.value else "";
    if b.breakerType == Some("double_pole") then
      NumberCell(p + "-" + IntToString(b.position + 2), "2P", suffix)
    else if b.breakerType == Some("tandem") then
      NumberCell(p + (if b.slotPosition == Some("A") then "A" else "B"), "T", suffix)
    else NumberCell(p, "", suffix)
  }

  /** A double-pole cell names both positions the breaker spans. */
  lemma DoublePoleCellSpansTwoPositions(b: UiBreaker)
    requires b.breakerType == Some("double_pole")
    ensures Contains(BreakerNumberCell(b).number, IntToString(b.position + 2))
  {
    ContainsSuffix(IntToString(b.position) + "-", IntToString(b.position + 2));
  }

  /** A tandem stored in slot A or B shows that slot's letter; any other
      slot value shows as B. */
  lemma TandemCellNamesSlot(b: UiBreaker)
    requires b.breakerType == Some("tandem")
    ensures b.slotPosition == Some("A") || b.slotPosition == Some("B") ==>
      BreakerNumberCell(b).number == IntToString(b.position) + b.slotPosition.value
    ensures b.slotPosition != Some("A") ==> BreakerNumberCell(b).number == IntToString(b.position) + "B"
  {
  }
}
