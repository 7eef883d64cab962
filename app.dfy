/** The client application object `BreakerPanelApp`: the panels, rooms and
    circuits it keeps between requests, the global circuit cache, the order
    of the panel selector, the state of the panel navigation buttons and
    the grouping of the room list by level. */
module PanelApp {
  import opened Common
  import opened ClientData

  // ---------------------------------------------------------------------------
  // The global circuit cache: a JavaScript `Map` from circuit id to circuit,
  // which enumerates its keys in insertion order
  // ---------------------------------------------------------------------------

  datatype CircuitCache = CircuitCache(ids: seq<int>, byId: map<int, UiCircuit>)

  /** The keys are listed once each, in `ids`, and every entry is stored
      under its own circuit's id. */
  predicate CacheWellFormed(c: CircuitCache) {
    NoDuplicates(c.ids) &&
    (forall id :: id in c.byId ==> id in c.ids) &&
    (forall i :: 0 <= i < |c.ids| ==> c.ids[i] in c.byId) &&
    (forall id :: id in c.byId ==> c.byId[id].id == id)
  }

  const EmptyCache := CircuitCache([], map[])

  /** `cache.set(circuit.id, circuit)`: a new key goes last, a key already
      present keeps its place and gets the new circuit. */
  function CacheSet(c: CircuitCache, circuit: UiCircuit): (r: CircuitCache)
    requires CacheWellFormed(c)
    ensures CacheWellFormed(r)
  {
    var r := CircuitCache(if circuit.id in c.byId then c.ids else c.ids + [circuit.id],
                          c.byId[circuit.id := circuit]);
    assert forall i :: 0 <= i < |c.ids| ==> r.ids[i] == c.ids[i];
    r
  }

  /** What `set` does to the map: the circuit is stored under its id, every
      other entry is kept, a new key goes last and a key already present
      keeps its place. */
  lemma CacheSetSemantics(c: CircuitCache, circuit: UiCircuit)
    requires CacheWellFormed(c)
    ensures var r := CacheSet(c, circuit);
      && circuit.id in r.byId && r.byId[circuit.id] == circuit
      && (forall id :: id != circuit.id ==> (id in r.byId <==> id in c.byId))
      && (forall id :: id != circuit.id && id in c.byId ==> r.byId[id] == c.byId[id])
      && (circuit.id in c.byId ==> r.ids == c.ids)
      && (circuit.id !in c.byId ==> r.ids == c.ids + [circuit.id])
  {
  }

  /** `ids` without `id`, in the same order. */
  function Without(ids: seq<int>, id: int): (r: seq<int>)
    ensures forall x :: x in r <==> x in ids && x != id
    ensures NoDuplicates(ids) ==> NoDuplicates(r)
    decreases |ids|
  {
    if ids == [] then []
    else
      var rest := Without(ids[1..], id);
      if ids[0] == id then rest
      else
        assert NoDuplicates(ids) ==> ids[0] !in ids[1..];
        [ids[0]] + rest
  }

  /** `cache.delete(id)`. */
  function CacheDelete(c: CircuitCache, id: int): (r: CircuitCache)
    requires CacheWellFormed(c)
    ensures CacheWellFormed(r)
    ensures id !in r.byId
    ensures forall k :: k != id ==> (k in r.byId <==> k in c.byId)
    ensures forall k :: k != id && k in c.byId ==> r.byId[k] == c.byId[k]
  {
    var r := CircuitCache(Without(c.ids, id), c.byId - {id});
    assert forall i :: 0 <= i < |r.ids| ==> r.ids[i] in r.ids && r.ids[i] in c.ids;
    r
  }

  /** `Array.from(cache.values())`. */
  function CacheValues(c: CircuitCache): seq<UiCircuit>
    requires CacheWellFormed(c)
  {
    seq(|c.ids|, i requires 0 <= i < |c.ids| && c.ids[i] in c.byId => c.byId[c.ids[i]])
  }

  /** The cache after `set` of each circuit of `cs` in turn, from empty. */
  function CacheOf(cs: seq<UiCircuit>): (r: CircuitCache)
    ensures CacheWellFormed(r)
    decreases |cs|
  {
    if cs == [] then EmptyCache else CacheSet(CacheOf(cs[..|cs| - 1]), cs[|cs| - 1])
  }

  /** The keys of the rebuilt cache are the ids of the circuits set. */
  lemma {:induction false} CacheOfKeys(cs: seq<UiCircuit>)
    ensures forall id :: id in CacheOf(cs).byId <==> exists i :: 0 <= i < |cs| && cs[i].id == id
    decreases |cs|
  {
    if cs != [] {
      var init := cs[..|cs| - 1];
      CacheOfKeys(init);
      assert forall i :: 0 <= i < |init| ==> init[i] == cs[i];
    }
  }

  predicate DistinctIds(cs: seq<UiCircuit>) {
    forall i, j :: 0 <= i < j < |cs| ==> cs[i].id != cs[j].id
  }

  lemma CacheValuesAppend(c: CircuitCache, x: UiCircuit)
    requires CacheWellFormed(c) && x.id !in c.byId
    ensures CacheValues(CacheSet(c, x)) == CacheValues(c) + [x]
  {
    var r := CacheSet(c, x);
    forall i | 0 <= i < |c.ids| ensures c.ids[i] in c.byId && r.byId[r.ids[i]] == c.byId[c.ids[i]] {
      assert c.ids[i] in c.ids;
      assert r.ids[i] == c.ids[i];
    }
  }

  /** Circuits with distinct ids come back out of the cache as they went
      in: every one of them, in the order they were set. */
  lemma {:induction false} CacheOfRoundTrip(cs: seq<UiCircuit>)
    requires DistinctIds(cs)
    ensures CacheValues(CacheOf(cs)) == cs
    decreases |cs|
  {
    if cs != [] {
      var init := cs[..|cs| - 1];
      var last := cs[|cs| - 1];
      assert DistinctIds(init);
      CacheOfRoundTrip(init);
      CacheOfKeys(init);
      assert last.id !in CacheOf(init).byId;
      CacheValuesAppend(CacheOf(init), last);
      assert init + [last] == cs;
    }
  }

  /** With repeated ids the last circuit set under an id is the one kept. */
  lemma {:induction false} CacheOfLastWins(cs: seq<UiCircuit>, i: int)
    requires 0 <= i < |cs|
    requires forall j :: i < j < |cs| ==> cs[j].id != cs[i].id
    ensures cs[i].id in CacheOf(cs).byId && CacheOf(cs).byId[cs[i].id] == cs[i]
    decreases |cs|
  {
    if i < |cs| - 1 {
      var init := cs[..|cs| - 1];
      CacheOfLastWins(init, i);
    }
  }

  /** `circuits.filter(c => c.breaker_id === breakerId)`. */
  function ByBreaker(cs: seq<UiCircuit>, breakerId: int): (r: seq<UiCircuit>)
    ensures forall c :: c in r <==> c in cs && c.breakerId == breakerId
    ensures |r| <= |cs|
    decreases |cs|
  {
    if cs == [] then []
    else
      var rest := ByBreaker(cs[1..], breakerId);
      assert forall c :: c in cs <==> c == cs[0] || c in cs[1..];
      if cs[0].breakerId == breakerId then [cs[0]] + rest else rest
  }

  /** A circuit just stored in the cache is among its breaker's circuits. */
  lemma StoredCircuitIsListed(c: CircuitCache, circuit: UiCircuit)
    requires CacheWellFormed(c)
    ensures circuit in ByBreaker(CacheValues(CacheSet(c, circuit)), circuit.breakerId)
  {
    var r := CacheSet(c, circuit);
    var k :| 0 <= k < |r.ids| && r.ids[k] == circuit.id;
    assert CacheValues(r)[k] == circuit;
  }

  /** A circuit just removed from the cache is nobody's circuit any more. */
  lemma RemovedCircuitIsNotListed(c: CircuitCache, id: int, breakerId: int)
    requires CacheWellFormed(c)
    ensures forall x :: x in ByBreaker(CacheValues(CacheDelete(c, id)), breakerId) ==> x.id != id
  {
    var r := CacheDelete(c, id);
    var values := CacheValues(r);
    forall x | x in values ensures x.id != id {
      var k :| 0 <= k < |values| && values[k] == x;
      assert r.ids[k] in r.byId;
      assert x == r.byId[r.ids[k]];
      assert x.id == r.ids[k];
    }
  }

  /** The circuits of every panel, one panel after another. */
  function Flatten(css: seq<seq<UiCircuit>>): seq<UiCircuit>
    decreases |css|
  {
    if css == [] then [] else Flatten(css[..|css| - 1]) + css[|css| - 1]
  }

  // ---------------------------------------------------------------------------
  // Main panels and subpanels
  // ---------------------------------------------------------------------------

  /** `circuit.type === 'subpanel' && circuit.subpanel_id`. */
  predicate FeedsSubpanel(c: UiCircuit) {
    c.circuitType == Some("subpanel") && TruthyInt(c.subpanelId)
  }

  /** `new Set(circuits.filter(FeedsSubpanel).map(c => c.subpanel_id))`:
      the panels some circuit feeds. */
  function SubpanelIds(cs: seq<UiCircuit>): (r: set<int>)
    ensures forall i :: 0 <= i < |cs| && FeedsSubpanel(cs[i]) ==> cs[i].subpanelId.value in r
    ensures forall id :: id in r ==>
      exists i :: 0 <= i < |cs| && FeedsSubpanel(cs[i]) && cs[i].subpanelId.value == id
    ensures 0 !in r
    decreases |cs|
  {
    if cs == [] then {}
    else
      var init := cs[..|cs| - 1];
      var rest := SubpanelIds(init);
      var c := cs[|cs| - 1];
      assert forall i :: 0 <= i < |init| ==> init[i] == cs[i];
      if FeedsSubpanel(c) then rest + {c.subpanelId.value} else rest
  }

  /** The comparator of the panel sort in `loadAllPanels`: main panels
      before subpanels, then by name. */
  function PanelCompare(subs: set<int>, a: UiPanel, b: UiPanel): int {
    var aIsMain := a.id !in subs;
    var bIsMain := b.id !in subs;
    if aIsMain && !bIsMain then -1
    else if !aIsMain && bIsMain then 1
    else LexCompare(a.name, b.name)
  }

  predicate PanelBefore(subs: set<int>, a: UiPanel, b: UiPanel) {
    PanelCompare(subs, a, b) <= 0
  }

  lemma PanelOrderIsTotalPreorder(subs: set<int>)
    ensures IsTotalPreorder((a: UiPanel, b: UiPanel) => PanelBefore(subs, a, b))
  {
    forall a: UiPanel, b: UiPanel ensures PanelBefore(subs, a, b) || PanelBefore(subs, b, a) {
      LexCompareSign(a.name, b.name);
      LexLeTotal(a.name, b.name);
    }
    forall a: UiPanel, b: UiPanel, c: UiPanel | PanelBefore(subs, a, b) && PanelBefore(subs, b, c)
      ensures PanelBefore(subs, a, c)
    {
      LexCompareSign(a.name, b.name);
      LexCompareSign(b.name, c.name);
      LexCompareSign(a.name, c.name);
      if (a.id in subs) == (b.id in subs) == (c.id in subs) {
        LexLeTransitive(a.name, b.name, c.name);
      }
    }
  }

  /** `panels.sort(...)` of `loadAllPanels`: the same panels, every main
      panel before every subpanel, and by name within each kind. */
  method SortPanels(panels: seq<UiPanel>, subs: set<int>) returns (sorted: seq<UiPanel>)
    ensures multiset(sorted) == multiset(panels)
    ensures forall i, j :: 0 <= i < j < |sorted| && sorted[j].id !in subs ==> sorted[i].id !in subs
    ensures forall i, j :: 0 <= i < j < |sorted| && (sorted[i].id in subs <==> sorted[j].id in subs) ==>
      LexLe(sorted[i].name, sorted[j].name)
  {
    PanelOrderIsTotalPreorder(subs);
    sorted := InsertionSort(panels, (a: UiPanel, b: UiPanel) => PanelBefore(subs, a, b));
    forall i, j | 0 <= i < j < |sorted|
      ensures sorted[j].id !in subs ==> sorted[i].id !in subs
      ensures (sorted[i].id in subs <==> sorted[j].id in subs) ==> LexLe(sorted[i].name, sorted[j].name)
    {
      assert PanelBefore(subs, sorted[i], sorted[j]);
      LexCompareSign(sorted[i].name, sorted[j].name);
    }
  }

  /** `{ value, text, panel }` of a panel selector entry. */
  datatype PanelOption = PanelOption(value: int, text: string, panel: UiPanel)

  const MainIcon := '\U{1F3E0}'
  const SubpanelIcon := '\U{26A1}'

  /** `createPanelOptions(panels, circuits)`: one entry per panel, in order;
      its text is an icon telling main panels from subpanels, a space and
      the panel's name. */
  function CreatePanelOptions(panels: seq<UiPanel>, circuits: seq<UiCircuit>): (r: seq<PanelOption>)
    ensures |r| == |panels|
    ensures forall i :: 0 <= i < |r| ==> r[i].value == panels[i].id && r[i].panel == panels[i]
    ensures forall i :: 0 <= i < |r| ==>
      |r[i].text| >= 2 && r[i].text[1] == ' ' && r[i].text[2..] == panels[i].name &&
      (r[i].text[0] == MainIcon <==> panels[i].id !in SubpanelIds(circuits))
  {
    var subs := SubpanelIds(circuits);
    seq(|panels|, i requires 0 <= i < |panels| =>
      PanelOption(panels[i].id,
                  [if panels[i].id !in subs then MainIcon else SubpanelIcon] + " " + panels[i].name,
                  panels[i]))
  }

  // ---------------------------------------------------------------------------
  // Panel navigation and deletion
  // ---------------------------------------------------------------------------

  /** `allPanels.findIndex(p => p.id === currentPanel?.id)`. */
  function FindPanelIndex(panels: seq<UiPanel>, id: Option<int>): (r: int)
    ensures -1 <= r < |panels|
    ensures r >= 0 ==> id == Some(panels[r].id) && forall j :: 0 <= j < r ==> Some(panels[j].id) != id
    ensures r == -1 ==> forall j :: 0 <= j < |panels| ==> Some(panels[j].id) != id
    decreases |panels|
  {
    if panels == [] then -1
    else if Some(panels[0].id) == id then 0
    else
      var k := FindPanelIndex(panels[1..], id);
      if k == -1 then -1 else k + 1
  }

  datatype PanelControls = PanelControls(prevDisabled: bool, nextDisabled: bool, deleteDisabled: bool)

  const LastPanelMessage := "Cannot delete the last panel. At least one panel must exist."

  /** The guard of `deleteCurrentPanel`: the alert it shows instead of
      asking, or nothing when the deletion may go ahead. */
  function DeleteCurrentPanelGuard(panels: seq<UiPanel>): (r: Option<string>)
    ensures r.Some? <==> |panels| <= 1
    ensures r.Some? ==> r.value == LastPanelMessage
  {
    if |panels| <= 1 then Some(LastPanelMessage) else None
  }

  /** `updatePanelControls()`; the delete button is disabled exactly when
      the delete guard would refuse. */
  function UpdatePanelControls(panels: seq<UiPanel>, current: Option<UiPanel>): (r: PanelControls)
    ensures r.deleteDisabled <==> DeleteCurrentPanelGuard(panels).Some?
  {
    var idx := FindPanelIndex(panels, if current.Some? then Some(current.value.id) else None);
    PanelControls(idx <= 0, idx >= |panels| - 1, |panels| <= 1)
  }

  /** On a panel of the list, "previous" is off only on the first panel and
      "next" only on the last. */
  lemma ControlsOnListedPanel(panels: seq<UiPanel>, i: int)
    requires 0 <= i < |panels|
    requires forall j :: 0 <= j < i ==> panels[j].id != panels[i].id
    ensures UpdatePanelControls(panels, Some(panels[i])).prevDisabled <==> i == 0
    ensures UpdatePanelControls(panels, Some(panels[i])).nextDisabled <==> i == |panels| - 1
  {
    var idx := FindPanelIndex(panels, Some(panels[i].id));
    assert idx == i;
  }

  /** With no current panel, or one not in the list, "previous" is off but
      "next" stays on as long as there is any panel. */
  lemma ControlsOffList(panels: seq<UiPanel>, current: Option<UiPanel>)
    requires current.Some? ==> forall j :: 0 <= j < |panels| ==> panels[j].id != current.value.id
    ensures UpdatePanelControls(panels, current).prevDisabled
    ensures UpdatePanelControls(panels, current).nextDisabled <==> panels == []
  {
    var idx := FindPanelIndex(panels, if current.Some? then Some(current.value.id) else None);
    assert idx == -1;
  }

  // ---------------------------------------------------------------------------
  // The room list, grouped by level
  // ---------------------------------------------------------------------------

  const LevelOrder := ["upper", "main", "basement", "outside"]

  function LevelName(level: string): string {
    if level == "basement" then "Basement"
    else if level == "main" then "Main Level"
    else if level == "upper" then "Upper Level"
    else "Outside"
  }

  /** `roomsByLevel[level]`: the rooms of one level, in list order. */
  function RoomsOfLevel(rooms: seq<UiRoom>, level: string): (r: seq<UiRoom>)
    ensures forall x :: x in r <==> x in rooms && x.level == level
    ensures |r| <= |rooms|
    decreases |rooms|
  {
    if rooms == [] then []
    else
      var rest := RoomsOfLevel(rooms[1..], level);
      assert forall x :: x in rooms <==> x == rooms[0] || x in rooms[1..];
      if rooms[0].level == level then [rooms[0]] + rest else rest
  }

  /** The rooms of a level keep their order: selecting from two runs of the
      list is selecting from each and concatenating. */
  lemma {:induction false} RoomsOfLevelAppend(a: seq<UiRoom>, b: seq<UiRoom>, level: string)
    ensures RoomsOfLevel(a + b, level) == RoomsOfLevel(a, level) + RoomsOfLevel(b, level)
    decreases |a|
  {
    if a != [] {
      assert (a + b)[1..] == a[1..] + b;
      RoomsOfLevelAppend(a[1..], b, level);
    } else {
      assert a + b == b;
    }
  }

  datatype LevelGroup = LevelGroup(level: string, heading: string, rooms: seq<UiRoom>)

  datatype RoomsView = NoRooms | ByLevel(groups: seq<LevelGroup>)

  /** `loadRoomsList()`: a notice when there are no rooms, otherwise one
      group per level in the order upper, main, basement, outside. */
  function LoadRoomsList(rooms: seq<UiRoom>): (r: RoomsView)
    ensures r.NoRooms? <==> rooms == []
    ensures r.ByLevel? ==> |r.groups| == 4
    ensures r.ByLevel? ==> forall i :: 0 <= i < 4 ==>
      r.groups[i].level == LevelOrder[i] && r.groups[i].heading == LevelName(LevelOrder[i])
  {
    if rooms == [] then NoRooms
    else ByLevel(seq(4, i requires 0 <= i < 4 =>
      LevelGroup(LevelOrder[i], LevelName(LevelOrder[i]), RoomsOfLevel(rooms, LevelOrder[i]))))
  }

  /** The rooms whose level is one of the four the list shows. */
  function ListedRooms(rooms: seq<UiRoom>): seq<UiRoom>
    decreases |rooms|
  {
    if rooms == [] then []
    else (if rooms[0].level in LevelOrder then [rooms[0]] else []) + ListedRooms(rooms[1..])
  }

  lemma {:induction false} LevelsPartition(rooms: seq<UiRoom>)
    ensures multiset(RoomsOfLevel(rooms, "upper")) + multiset(RoomsOfLevel(rooms, "main")) +
            multiset(RoomsOfLevel(rooms, "basement")) + multiset(RoomsOfLevel(rooms, "outside"))
         == multiset(ListedRooms(rooms))
    decreases |rooms|
  {
    if rooms != [] {
      LevelsPartition(rooms[1..]);
    }
  }

  /** Every room of a known level is shown exactly once, in its level's
      group; rooms of any other level are not shown. */
  lemma RoomsListPartition(rooms: seq<UiRoom>)
    requires rooms != []
    ensures multiset(LoadRoomsList(rooms).groups[0].rooms) + multiset(LoadRoomsList(rooms).groups[1].rooms) +
            multiset(LoadRoomsList(rooms).groups[2].rooms) + multiset(LoadRoomsList(rooms).groups[3].rooms)
         == multiset(ListedRooms(rooms))
  {
    LevelsPartition(rooms);
  }

  /** The cache-building loop of `loadAllPanels()`: every circuit of every
      panel is set in the cache and appended to `allCircuits`. */
  method CollectCircuits(panelCircuits: seq<seq<UiCircuit>>) returns (allCircuits: seq<UiCircuit>, cache: CircuitCache)
    ensures allCircuits == Flatten(panelCircuits)
    ensures cache == CacheOf(allCircuits)
  {
    cache := EmptyCache;
    allCircuits := [];
    var p := 0;
    while p < |panelCircuits|
      invariant 0 <= p <= |panelCircuits|
      invariant allCircuits == Flatten(panelCircuits[..p])
      invariant cache == CacheOf(allCircuits)
    {
      FlattenSnoc(panelCircuits, p);
      allCircuits, cache := CollectPanelCircuits(allCircuits, cache, panelCircuits[p]);
      p := p + 1;
    }
    assert panelCircuits[..p] == panelCircuits;
  }

  /** The inner loop of the cache build: the circuits of one panel. */
  method CollectPanelCircuits(before: seq<UiCircuit>, cache0: CircuitCache, circuits: seq<UiCircuit>)
    returns (allCircuits: seq<UiCircuit>, cache: CircuitCache)
    requires cache0 == CacheOf(before)
    ensures allCircuits == before + circuits
    ensures cache == CacheOf(allCircuits)
  {
    allCircuits, cache := before, cache0;
    var i := 0;
    while i < |circuits|
      invariant 0 <= i <= |circuits|
      invariant allCircuits == before + circuits[..i]
      invariant cache == CacheOf(allCircuits)
    {
      CacheOfSnoc(allCircuits, circuits[i]);
      cache := CacheSet(cache, circuits[i]);
      allCircuits := allCircuits + [circuits[i]];
      assert circuits[..i + 1] == circuits[..i] + [circuits[i]];
      i := i + 1;
    }
    assert circuits[..i] == circuits;
  }

  lemma CacheOfSnoc(cs: seq<UiCircuit>, x: UiCircuit)
    ensures CacheOf(cs + [x]) == CacheSet(CacheOf(cs), x)
  {
    assert (cs + [x])[..|cs|] == cs;
  }

  lemma FlattenSnoc(css: seq<seq<UiCircuit>>, p: int)
    requires 0 <= p < |css|
    ensures Flatten(css[..p + 1]) == Flatten(css[..p]) + css[p]
  {
    assert css[..p + 1][..p] == css[..p];
  }

  // ---------------------------------------------------------------------------
  // The application object
  // ---------------------------------------------------------------------------

  class BreakerPanelApp {
    var currentPanel: Option<UiPanel>
    var allPanels: seq<UiPanel>
    var allRooms: seq<UiRoom>
    var currentBreaker: Option<UiBreaker>
    var allCircuitData: seq<CircuitRow>
    var globalCircuitCache: CircuitCache
    var currentSort: SortState

    predicate Valid()
      reads this
    {
      CacheWellFormed(globalCircuitCache)
    }

    constructor()
      ensures Valid()
      ensures currentPanel == None && allPanels == [] && allRooms == [] && currentBreaker == None
      ensures allCircuitData == [] && globalCircuitCache == EmptyCache && currentSort == DefaultSort
    {
      currentPanel := None;
      allPanels := [];
      allRooms := [];
      currentBreaker := None;
      allCircuitData := [];
      globalCircuitCache := EmptyCache;
      currentSort := DefaultSort;
    }

    /** The part of `loadAllPanels()` after the fetches: `panelCircuits[k]`
        is what `getPanelComplete` returned for the k-th panel (no circuits
        when that request failed). The cache is rebuilt from every circuit
        and the panels are sorted main panels first. */
    method LoadAllPanels(panels: seq<UiPanel>, panelCircuits: seq<seq<UiCircuit>>)
      modifies this
      ensures Valid()
      ensures globalCircuitCache == CacheOf(Flatten(panelCircuits))
      ensures multiset(allPanels) == multiset(panels)
      ensures forall i, j :: 0 <= i < j < |allPanels| && allPanels[j].id !in SubpanelIds(Flatten(panelCircuits)) ==>
        allPanels[i].id !in SubpanelIds(Flatten(panelCircuits))
      ensures var subs := SubpanelIds(Flatten(panelCircuits));
        forall i, j :: 0 <= i < j < |allPanels| && (allPanels[i].id in subs <==> allPanels[j].id in subs) ==>
          LexLe(allPanels[i].name, allPanels[j].name)
      ensures currentPanel == old(currentPanel) && allRooms == old(allRooms) && currentBreaker == old(currentBreaker)
      ensures allCircuitData == old(allCircuitData) && currentSort == old(currentSort)
    {
      var allCircuits, cache := CollectCircuits(panelCircuits);
      var subs := SubpanelIds(allCircuits);
      var sorted := SortPanels(panels, subs);
      globalCircuitCache := cache;
      allPanels := sorted;
    }

    /** `updateCircuitCache(circuit)`. */
    method UpdateCircuitCache(circuit: UiCircuit)
      requires Valid()
      modifies this
      ensures Valid()
      ensures globalCircuitCache == CacheSet(old(globalCircuitCache), circuit)
      ensures currentPanel == old(currentPanel) && allPanels == old(allPanels) && allRooms == old(allRooms)
      ensures currentBreaker == old(currentBreaker) && allCircuitData == old(allCircuitData)
      ensures currentSort == old(currentSort)
    {
      globalCircuitCache := CacheSet(globalCircuitCache, circuit);
    }

    /** `removeCircuitFromCache(circuitId)`. */
    method RemoveCircuitFromCache(circuitId: int)
      requires Valid()
      modifies this
      ensures Valid()
      ensures globalCircuitCache == CacheDelete(old(globalCircuitCache), circuitId)
      ensures currentPanel == old(currentPanel) && allPanels == old(allPanels) && allRooms == old(allRooms)
      ensures currentBreaker == old(currentBreaker) && allCircuitData == old(allCircuitData)
      ensures currentSort == old(currentSort)
    {
      globalCircuitCache := CacheDelete(globalCircuitCache, circuitId);
    }

    /** `getCircuitsByBreaker(breakerId)`: the cached circuits of one
        breaker, in cache order. */
    function GetCircuitsByBreaker(breakerId: int): (r: seq<UiCircuit>)
      requires Valid()
      reads this
      ensures forall c :: c in r <==> c in CacheValues(globalCircuitCache) && c.breakerId == breakerId
    {
      ByBreaker(CacheValues(globalCircuitCache), breakerId)
    }
  }
}
