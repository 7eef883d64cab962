/** The panel view `PanelRenderer`: its caches of the shown panel's
    breakers and circuits, the label it proposes from a breaker's circuits,
    and the breaker-type rules of the breaker editor. */
module PanelRendering {
  import opened Common
  import opened ClientData
  import opened PanelApp
  import opened ErrorHandling

  // ---------------------------------------------------------------------------
  // Cache keys
  // ---------------------------------------------------------------------------

  /** `${position}-${slot}`. */
  function BreakerKey(position: int, slot: string): string {
    IntToString(position) + "-" + slot
  }

  /** The key a breaker is cached under: its slot defaults to `single`. */
  function BreakerKeyOf(b: UiBreaker): string {
    BreakerKey(b.position, SlotOf(b))
  }

  lemma NatToStringIsDigits(n: nat, i: int)
    requires 0 <= i < |NatToString(n)|
    ensures NatToString(n)[i] != '-'
  {
    assert IsDigit(NatToString(n)[i]);
  }

  /** Distinct positions or slots never share a cache key. */
  lemma BreakerKeyInjective(p1: nat, s1: string, p2: nat, s2: string)
    requires BreakerKey(p1, s1) == BreakerKey(p2, s2)
    ensures p1 == p2 && s1 == s2
  {
    var d1 := NatToString(p1);
    var d2 := NatToString(p2);
    var k := BreakerKey(p1, s1);
    assert k == d1 + "-" + s1 && k == d2 + "-" + s2;
    if |d1| < |d2| {
      assert k[|d1|] == '-';
      assert k[|d1|] == d2[|d1|];
      NatToStringIsDigits(p2, |d1|);
    } else if |d2| < |d1| {
      assert k[|d2|] == '-';
      assert k[|d2|] == d1[|d2|];
      NatToStringIsDigits(p1, |d2|);
    } else {
      assert d1 == k[..|d1|] == d2;
      ParseNatToString(p1);
      ParseNatToString(p2);
      assert s1 == k[|d1| + 1..] == s2;
    }
  }

  // ---------------------------------------------------------------------------
  // The breaker and circuit caches
  // ---------------------------------------------------------------------------

  /** The breaker cache after `set` of every breaker in turn: the later of
      two breakers with the same key wins. */
  function BreakerCacheOf(bs: seq<UiBreaker>): (r: map<string, UiBreaker>)
    ensures forall k :: k in r ==> BreakerKeyOf(r[k]) == k
    decreases |bs|
  {
    if bs == [] then map[]
    else BreakerCacheOf(bs[..|bs| - 1])[BreakerKeyOf(bs[|bs| - 1]) := bs[|bs| - 1]]
  }

  /** A breaker whose position and slot no later breaker repeats is found
      in the cache under its key. */
  lemma {:induction false} BreakerCacheFinds(bs: seq<UiBreaker>, i: int)
    requires 0 <= i < |bs|
    requires forall j :: 0 <= j < |bs| ==> bs[j].position >= 0
    requires forall j :: i < j < |bs| ==> bs[j].position != bs[i].position || SlotOf(bs[j]) != SlotOf(bs[i])
    ensures BreakerKeyOf(bs[i]) in BreakerCacheOf(bs) && BreakerCacheOf(bs)[BreakerKeyOf(bs[i])] == bs[i]
    decreases |bs|
  {
    var last := bs[|bs| - 1];
    if i < |bs| - 1 {
      var init := bs[..|bs| - 1];
      BreakerCacheFinds(init, i);
      if BreakerKeyOf(last) == BreakerKeyOf(bs[i]) {
        BreakerKeyInjective(last.position, SlotOf(last), bs[i].position, SlotOf(bs[i]));
      }
    }
  }

  /** The circuit cache after pushing every circuit onto its breaker's list. */
  function CircuitGroups(cs: seq<UiCircuit>): (r: map<int, seq<UiCircuit>>)
    decreases |cs|
  {
    if cs == [] then map[]
    else
      var g := CircuitGroups(cs[..|cs| - 1]);
      var c := cs[|cs| - 1];
      g[c.breakerId := (if c.breakerId in g then g[c.breakerId] else []) + [c]]
  }

  lemma {:induction false} ByBreakerAppend(a: seq<UiCircuit>, b: seq<UiCircuit>, id: int)
    ensures ByBreaker(a + b, id) == ByBreaker(a, id) + ByBreaker(b, id)
    decreases |a|
  {
    if a == [] {
      assert a + b == b;
    } else {
      assert (a + b)[0] == a[0] && (a + b)[1..] == a[1..] + b;
      ByBreakerAppend(a[1..], b, id);
    }
  }

  /** The circuit cache holds, for each breaker some circuit names, exactly
      that breaker's circuits in list order, and nothing else. */
  lemma {:induction false} CircuitGroupsAreFilters(cs: seq<UiCircuit>)
    ensures forall id :: id in CircuitGroups(cs) <==> ByBreaker(cs, id) != []
    ensures forall id :: id in CircuitGroups(cs) ==> CircuitGroups(cs)[id] == ByBreaker(cs, id)
    decreases |cs|
  {
    if cs != [] {
      var init := cs[..|cs| - 1];
      var c := cs[|cs| - 1];
      CircuitGroupsAreFilters(init);
      assert init + [c] == cs;
      forall id ensures ByBreaker(cs, id) == ByBreaker(init, id) + (if id == c.breakerId then [c] else []) {
        ByBreakerAppend(init, [c], id);
        ByBreakerOne(c, id);
      }
    }
  }

  lemma ByBreakerOne(c: UiCircuit, id: int)
    ensures ByBreaker([c], id) == if id == c.breakerId then [c] else []
  {
    assert [c][1..] == [];
  }

  /** One more `set` into the breaker cache. */
  lemma BreakerCacheStep(bs: seq<UiBreaker>, i: int)
    requires 0 <= i < |bs|
    ensures BreakerCacheOf(bs[..i + 1]) == BreakerCacheOf(bs[..i])[BreakerKeyOf(bs[i]) := bs[i]]
  {
    assert bs[..i + 1][..i] == bs[..i];
  }

  /** One more circuit pushed onto its breaker's list. */
  lemma CircuitGroupsStep(cs: seq<UiCircuit>, j: int)
    requires 0 <= j < |cs|
    ensures var g := CircuitGroups(cs[..j]);
      CircuitGroups(cs[..j + 1]) ==
        g[cs[j].breakerId := (if cs[j].breakerId in g then g[cs[j].breakerId] else []) + [cs[j]]]
  {
    assert cs[..j + 1][..j] == cs[..j];
  }

  /** The breaker loop of `loadBreakers()`: `set` under each address key. */
  method BuildBreakerCache(breakers: seq<UiBreaker>) returns (bc: map<string, UiBreaker>)
    ensures bc == BreakerCacheOf(breakers)
  {
    bc := map[];
    var i := 0;
    while i < |breakers|
      invariant 0 <= i <= |breakers|
      invariant bc == BreakerCacheOf(breakers[..i])
    {
      BreakerCacheStep(breakers, i);
      bc := bc[BreakerKeyOf(breakers[i]) := breakers[i]];
      i := i + 1;
    }
    assert breakers[..i] == breakers;
  }

  /** The circuit loop of `loadBreakers()`: push each circuit onto its
      breaker's list, creating the list on first use. */
  method BuildCircuitGroups(circuits: seq<UiCircuit>) returns (cc: map<int, seq<UiCircuit>>)
    ensures cc == CircuitGroups(circuits)
  {
    cc := map[];
    var j := 0;
    while j < |circuits|
      invariant 0 <= j <= |circuits|
      invariant cc == CircuitGroups(circuits[..j])
    {
      CircuitGroupsStep(circuits, j);
      var id := circuits[j].breakerId;
      if id !in cc {
        cc := cc[id := []];
      }
      cc := cc[id := cc[id] + [circuits[j]]];
      j := j + 1;
    }
    assert circuits[..j] == circuits;
  }

  /** The panel view; `app` is the application it belongs to. */
  class PanelRenderer {
    const app: BreakerPanelApp
    var breakerCache: map<string, UiBreaker>
    var circuitCache: map<int, seq<UiCircuit>>

    constructor(app: BreakerPanelApp)
      ensures this.app == app && breakerCache == map[] && circuitCache == map[]
    {
      this.app := app;
      breakerCache := map[];
      circuitCache := map[];
    }

    /** The cache rebuild of `loadBreakers()`, given the breakers and
        circuits the panel request returned. */
    method LoadBreakers(breakers: seq<UiBreaker>, circuits: seq<UiCircuit>)
      modifies this
      ensures breakerCache == BreakerCacheOf(breakers)
      ensures circuitCache == CircuitGroups(circuits)
    {
      breakerCache := BuildBreakerCache(breakers);
      circuitCache := BuildCircuitGroups(circuits);
    }

    /** `openBreakerModal(position, slot)`: the cached breaker at that
        address, else a new one on the current panel; without a current
        panel the new breaker cannot be made and none is current. */
    method OpenBreakerModal(position: int, slot: string)
      modifies app
      ensures BreakerKey(position, slot) in breakerCache ==>
        app.currentBreaker == Some(breakerCache[BreakerKey(position, slot)])
      ensures BreakerKey(position, slot) !in breakerCache && app.currentPanel.Some? ==>
        app.currentBreaker == Some(NewBreaker(app.currentPanel.value.id, position, slot))
      ensures BreakerKey(position, slot) !in breakerCache && app.currentPanel.None? ==> app.currentBreaker == None
      ensures app.currentPanel == old(app.currentPanel) && app.allPanels == old(app.allPanels)
      ensures app.allRooms == old(app.allRooms) && app.allCircuitData == old(app.allCircuitData)
      ensures app.globalCircuitCache == old(app.globalCircuitCache) && app.currentSort == old(app.currentSort)
    {
      var key := BreakerKey(position, slot);
      if key in breakerCache {
        app.currentBreaker := Some(breakerCache[key]);
      } else if app.currentPanel.Some? {
        app.currentBreaker := Some(NewBreaker(app.currentPanel.value.id, position, slot));
      } else {
        app.currentBreaker := None;
      }
    }

    /** `updateBreakerCache(breaker)`. */
    method UpdateBreakerCache(b: UiBreaker)
      modifies this
      ensures breakerCache == old(breakerCache)[BreakerKeyOf(b) := b]
      ensures circuitCache == old(circuitCache)
    {
      breakerCache := breakerCache[BreakerKeyOf(b) := b];
    }

    /** The cache side of `saveBreakerForm`: `Object.assign` updates the
        current breaker in place, and when it was opened from the cache
        under key `fromKey` the entry there is that same object, so it holds
        the saved values too; `updateBreakerCache` then stores it under its
        own address. */
    method StoreSavedBreaker(fromKey: Option<string>, saved: UiBreaker)
      modifies this
      ensures fromKey.Some? && fromKey.value in old(breakerCache) ==>
        breakerCache == old(breakerCache)[fromKey.value := saved][BreakerKeyOf(saved) := saved]
      ensures !(fromKey.Some? && fromKey.value in old(breakerCache)) ==>
        breakerCache == old(breakerCache)[BreakerKeyOf(saved) := saved]
      ensures circuitCache == old(circuitCache)
    {
      if fromKey.Some? && fromKey.value in breakerCache {
        breakerCache := breakerCache[fromKey.value := saved];
      }
      UpdateBreakerCache(saved);
    }

    /** `removeBreakerFromCache(position, slot)`; callers that leave out the
        slot pass `"single"`. */
    method RemoveBreakerFromCache(position: int, slot: string)
      modifies this
      ensures breakerCache == old(breakerCache) - {BreakerKey(position, slot)}
      ensures circuitCache == old(circuitCache)
    {
      breakerCache := breakerCache - {BreakerKey(position, slot)};
    }
  }

  /** Updating a breaker leaves the breaker cached at every other address
      in place. */
  lemma UpdateKeepsOtherAddresses(cache: map<string, UiBreaker>, b: UiBreaker, position: nat, slot: string)
    requires b.position >= 0
    requires position != b.position || slot != SlotOf(b)
    ensures BreakerKey(position, slot) in cache[BreakerKeyOf(b) := b] <==> BreakerKey(position, slot) in cache
    ensures BreakerKey(position, slot) in cache ==>
      cache[BreakerKeyOf(b) := b][BreakerKey(position, slot)] == cache[BreakerKey(position, slot)]
  {
    if BreakerKey(position, slot) == BreakerKeyOf(b) {
      BreakerKeyInjective(position, slot, b.position, SlotOf(b));
    }
  }

  /** Every cached breaker is stored under its own address. */
  predicate KeyedByAddress(cache: map<string, UiBreaker>) {
    forall k :: k in cache ==> BreakerKeyOf(cache[k]) == k
  }

  /** Caching a breaker under its address keeps every entry under its own
      address. */
  lemma UpdateKeepsKeyedByAddress(cache: map<string, UiBreaker>, b: UiBreaker)
    requires KeyedByAddress(cache)
    ensures KeyedByAddress(cache[BreakerKeyOf(b) := b])
  {
  }

  /** Saving a cached breaker in another slot, as written, leaves the entry
      under its old key holding the saved breaker, whose address is the new
      one: the cache is no longer keyed by address and the breaker is listed
      at its position twice. */
  lemma SlotChangeLeavesStaleEntry(cache: map<string, UiBreaker>, b: UiBreaker, saved: UiBreaker)
    requires KeyedByAddress(cache) && BreakerKeyOf(b) in cache
    requires b.position >= 0 && saved.position == b.position && SlotOf(saved) != SlotOf(b)
    ensures var after := cache[BreakerKeyOf(b) := saved][BreakerKeyOf(saved) := saved];
      BreakerKeyOf(b) != BreakerKeyOf(saved) && after[BreakerKeyOf(b)] == saved &&
      after[BreakerKeyOf(saved)] == saved && !KeyedByAddress(after)
  {
    if BreakerKeyOf(b) == BreakerKeyOf(saved) {
      BreakerKeyInjective(b.position, SlotOf(b), saved.position, SlotOf(saved));
    }
  }

  /** Removing a breaker by its position and slot undoes caching it. */
  lemma RemoveUndoesUpdate(cache: map<string, UiBreaker>, b: UiBreaker)
    requires BreakerKeyOf(b) !in cache
    ensures cache[BreakerKeyOf(b) := b] - {BreakerKey(b.position, SlotOf(b))} == cache
  {
  }

  // ---------------------------------------------------------------------------
  // The automatic label
  // ---------------------------------------------------------------------------

  /** `s && s.trim()`: present and not blank. */
  predicate HasText(s: Option<string>) {
    TruthyText(s) && Trim(s.value) != ""
  }

  /** No part of a label is the empty string. */
  predicate NonBlank(parts: seq<string>) {
    forall i :: 0 <= i < |parts| ==> parts[i] != ""
  }

  lemma NonBlankAppend(a: seq<string>, b: seq<string>)
    requires NonBlank(a) && NonBlank(b)
    ensures NonBlank(a + b)
  {
    forall i | 0 <= i < |a + b|
      ensures (a + b)[i] != ""
    {
      if i < |a| {
        assert (a + b)[i] == a[i];
      } else {
        assert (a + b)[i] == b[i - |a|];
      }
    }
  }

  /** `circuit.type || 'other'`: the group a circuit falls in. */
  function TypeKey(c: UiCircuit): (r: string)
    ensures r != ""
  {
    TextOr(c.circuitType, "other")
  }

  /** The label part of one appliance, heating, subpanel or other circuit
      of type `t`: its trimmed notes, else (not for subpanels) its room
      followed by the type, else a fixed word. */
  function PartOf(c: UiCircuit, t: string): (r: string)
    ensures t != "" ==> r != ""
    ensures HasText(c.notes) ==> r == Trim(c.notes.value)
    ensures !HasText(c.notes) && t == "subpanel" ==> r == "Subpanel"
    ensures !HasText(c.notes) && t != "subpanel" && HasText(c.room) ==> r == c.room.value + " " + t
    ensures !HasText(c.notes) && t != "subpanel" && !HasText(c.room) ==>
      r == (if t == "appliance" then "Appliance" else if t == "heating" then "Heating" else t)
  {
    if HasText(c.notes) then Trim(c.notes.value)
    else if t == "subpanel" then "Subpanel"
    else if HasText(c.room) then c.room.value + " " + t
    else if t == "appliance" then "Appliance"
    else if t == "heating" then "Heating"
    else t
  }

  /** The parts of the circuits of type `t`, in list order. */
  function PartsOfType(cs: seq<UiCircuit>, t: string): (r: seq<string>)
    ensures |r| <= |cs|
    decreases |cs|
  {
    if cs == [] then []
    else
      var last := cs[|cs| - 1];
      PartsOfType(cs[..|cs| - 1], t) + (if TypeKey(last) == t then [PartOf(last, t)] else [])
  }

  lemma {:induction false} PartsOfTypeNonBlank(cs: seq<UiCircuit>, t: string)
    requires t != ""
    ensures NonBlank(PartsOfType(cs, t))
    decreases |cs|
  {
    if cs != [] {
      var last := cs[|cs| - 1];
      PartsOfTypeNonBlank(cs[..|cs| - 1], t);
      NonBlankAppend(PartsOfType(cs[..|cs| - 1], t), if TypeKey(last) == t then [PartOf(last, t)] else []);
    }
  }

  /** There is a part of type `t` exactly when some circuit has type `t`. */
  lemma {:induction false} PartsOfTypeEmptyIff(cs: seq<UiCircuit>, t: string)
    ensures PartsOfType(cs, t) == [] <==> forall i :: 0 <= i < |cs| ==> TypeKey(cs[i]) != t
    decreases |cs|
  {
    if cs != [] {
      var init := cs[..|cs| - 1];
      PartsOfTypeEmptyIff(init, t);
      assert forall i :: 0 <= i < |init| ==> init[i] == cs[i];
    }
  }

  /** The room an outlet or light is counted under. */
  function RoomOrGeneral(c: UiCircuit): string {
    if HasText(c.room) then Trim(c.room.value) else "General"
  }

  /** The rooms of the circuits of type `t`, in list order. */
  function RoomsOfType(cs: seq<UiCircuit>, t: string): (r: seq<string>)
    ensures |r| <= |cs|
    decreases |cs|
  {
    if cs == [] then []
    else
      var last := cs[|cs| - 1];
      RoomsOfType(cs[..|cs| - 1], t) + (if TypeKey(last) == t then [RoomOrGeneral(last)] else [])
  }

  lemma {:induction false} RoomsOfTypeEmptyIff(cs: seq<UiCircuit>, t: string)
    ensures RoomsOfType(cs, t) == [] <==> forall i :: 0 <= i < |cs| ==> TypeKey(cs[i]) != t
    decreases |cs|
  {
    if cs != [] {
      var init := cs[..|cs| - 1];
      RoomsOfTypeEmptyIff(init, t);
      assert forall i :: 0 <= i < |init| ==> init[i] == cs[i];
    }
  }

  /** `rooms.filter(r => r !== 'General')`. */
  function NamedOnly(rooms: seq<string>): (r: seq<string>)
    ensures forall x :: x in r <==> x in rooms && x != "General"
    ensures |r| <= |rooms|
    decreases |rooms|
  {
    if rooms == [] then []
    else
      var rest := NamedOnly(rooms[1..]);
      assert forall x :: x in rooms <==> x == rooms[0] || x in rooms[1..];
      if rooms[0] != "General" then [rooms[0]] + rest else rest
  }

  /** The merged label of all outlets or all lights: one room by name, two
      or three rooms listed with "and", more rooms counted. It always ends
      with the type's name. */
  function GroupPart(rooms: seq<string>, typeName: string): (r: string)
    requires rooms != []
    ensures |typeName| <= |r| && r[|r| - |typeName|..] == typeName
    // One room: by name, or the bare type name for "General".
    ensures |rooms| == 1 ==> r == (if rooms[0] == "General" then typeName else rooms[0] + " " + typeName)
    // Two or three rooms: the named ones joined with " and ", then
    // " and general" when "General" is among them.
    ensures 2 <= |rooms| <= 3 && Join(NamedOnly(rooms), " and ") != "" ==>
      r == Join(NamedOnly(rooms), " and ") + (if "General" in rooms then " and general " else " ") + typeName
    ensures 2 <= |rooms| <= 3 && Join(NamedOnly(rooms), " and ") == "" ==> r == typeName
    // More rooms: counted, "General" counting once.
    ensures |rooms| > 3 ==>
      r == IntToString(|NamedOnly(rooms)| + (if "General" in rooms then 1 else 0)) + " room " + typeName
  {
    var named := NamedOnly(rooms);
    var general := "General" in rooms;
    if |rooms| == 1 then
      if rooms[0] == "General" then typeName else rooms[0] + " " + typeName
    else if |rooms| <= 3 then
      var roomList := Join(named, " and ");
      if general && roomList != "" then roomList + " and general " + typeName
      else if roomList != "" then roomList + " " + typeName
      else typeName
    else IntToString(|named| + (if general then 1 else 0)) + " room " + typeName
  }

  /** The outlet or lighting part, when there is any such circuit. */
  function GroupParts(cs: seq<UiCircuit>, t: string, typeName: string): (r: seq<string>)
    ensures typeName != "" ==> NonBlank(r)
    ensures r == [] <==> forall i :: 0 <= i < |cs| ==> TypeKey(cs[i]) != t
  {
    var rooms := Dedup(RoomsOfType(cs, t));
    RoomsOfTypeEmptyIff(cs, t);
    assert RoomsOfType(cs, t) != [] ==> RoomsOfType(cs, t)[0] in rooms;
    if |rooms| > 0 then [GroupPart(rooms, typeName)] else []
  }

  /** Among distinct rooms, the named ones and "General" (if present)
      together are all of them. */
  lemma {:induction false} NamedOnlyCount(rooms: seq<string>)
    requires NoDuplicates(rooms)
    ensures |NamedOnly(rooms)| + (if "General" in rooms then 1 else 0) == |rooms|
    decreases |rooms|
  {
    if rooms != [] {
      var rest := rooms[1..];
      assert NoDuplicates(rest) by {
        forall i, j | 0 <= i < j < |rest| ensures rest[i] != rest[j] {
          assert rest[i] == rooms[i + 1] && rest[j] == rooms[j + 1];
        }
      }
      NamedOnlyCount(rest);
      assert forall x :: x in rooms <==> x == rooms[0] || x in rest;
      if rooms[0] == "General" {
        assert "General" !in rest by {
          forall j | 0 <= j < |rest| ensures rest[j] != "General" {
            assert rest[j] == rooms[j + 1];
          }
        }
      }
    }
  }

  /** With more than three distinct rooms the merged part counts every one
      of them. */
  lemma ManyRoomsCounted(rooms: seq<string>, typeName: string)
    requires NoDuplicates(rooms) && |rooms| > 3
    ensures GroupPart(rooms, typeName) == IntToString(|rooms|) + " room " + typeName
  {
    NamedOnlyCount(rooms);
  }

  const KnownTypes := ["appliance", "heating", "subpanel", "outlet", "lighting"]

  /** The group keys of the circuits, in list order. */
  function TypeKeys(cs: seq<UiCircuit>): (r: seq<string>)
    ensures |r| == |cs| && forall i :: 0 <= i < |cs| ==> r[i] == TypeKey(cs[i])
  {
    seq(|cs|, i requires 0 <= i < |cs| => TypeKey(cs[i]))
  }

  /** The keys outside the five known types, in list order. */
  function OtherKeys(keys: seq<string>): (r: seq<string>)
    ensures forall x :: x in r <==> x in keys && x !in KnownTypes
    decreases |keys|
  {
    if keys == [] then []
    else
      var rest := OtherKeys(keys[1..]);
      assert forall x :: x in keys <==> x == keys[0] || x in keys[1..];
      if keys[0] !in KnownTypes then [keys[0]] + rest else rest
  }

  /** The other types, each once, in the order they first occur: the
      insertion order of the grouping object's keys. */
  function OtherTypes(cs: seq<UiCircuit>): (r: seq<string>)
    ensures NonBlank(r)
    ensures forall t :: t in r <==> t !in KnownTypes && exists i :: 0 <= i < |cs| && TypeKey(cs[i]) == t
  {
    var keys := TypeKeys(cs);
    assert forall t :: t in keys <==> exists i :: 0 <= i < |cs| && TypeKey(cs[i]) == t by {
      forall t ensures t in keys <==> exists i :: 0 <= i < |cs| && TypeKey(cs[i]) == t {
        if t in keys {
          var i :| 0 <= i < |keys| && keys[i] == t;
          assert TypeKey(cs[i]) == t;
        }
        if exists i :: 0 <= i < |cs| && TypeKey(cs[i]) == t {
          var i :| 0 <= i < |cs| && TypeKey(cs[i]) == t;
          assert keys[i] in keys;
        }
      }
    }
    var r := Dedup(OtherKeys(keys));
    assert forall i :: 0 <= i < |r| ==> r[i] in r;
    r
  }

  /** Circuits of the five known types only leave no other type. */
  lemma OtherTypesOfKnown(cs: seq<UiCircuit>)
    requires forall i :: 0 <= i < |cs| ==> TypeKey(cs[i]) in KnownTypes
    ensures OtherTypes(cs) == []
  {
    OtherKeysOfKnown(TypeKeys(cs));
  }

  lemma {:induction false} OtherKeysOfKnown(keys: seq<string>)
    requires forall i :: 0 <= i < |keys| ==> keys[i] in KnownTypes
    ensures OtherKeys(keys) == []
    decreases |keys|
  {
    if keys != [] {
      OtherKeysOfKnown(keys[1..]);
    }
  }

  /** The parts of every circuit of each of `types`, type by type. */
  function OtherParts(cs: seq<UiCircuit>, types: seq<string>): (r: seq<string>)
    decreases |types|
  {
    if types == [] then []
    else OtherParts(cs, types[..|types| - 1]) + PartsOfType(cs, types[|types| - 1])
  }

  lemma {:induction false} OtherPartsNonBlank(cs: seq<UiCircuit>, types: seq<string>)
    requires NonBlank(types)
    ensures NonBlank(OtherParts(cs, types))
    decreases |types|
  {
    if types != [] {
      var t := types[|types| - 1];
      OtherPartsNonBlank(cs, types[..|types| - 1]);
      PartsOfTypeNonBlank(cs, t);
      NonBlankAppend(OtherParts(cs, types[..|types| - 1]), PartsOfType(cs, t));
    }
  }

  lemma {:induction false} OtherPartsEmptyIff(cs: seq<UiCircuit>, types: seq<string>)
    ensures OtherParts(cs, types) == [] <==> forall k :: 0 <= k < |types| ==> PartsOfType(cs, types[k]) == []
    decreases |types|
  {
    if types != [] {
      var init := types[..|types| - 1];
      OtherPartsEmptyIff(cs, init);
      assert forall k :: 0 <= k < |init| ==> init[k] == types[k];
    }
  }

  /** The parts of the appliance, heating and subpanel circuits. */
  function SingleParts(cs: seq<UiCircuit>): seq<string> {
    PartsOfType(cs, "appliance") + PartsOfType(cs, "heating") + PartsOfType(cs, "subpanel")
  }

  /** The label parts of `generateAutoLabel`, in the order it pushes them. */
  function AutoLabelParts(cs: seq<UiCircuit>): seq<string> {
    SingleParts(cs) + GroupParts(cs, "outlet", "outlets") + GroupParts(cs, "lighting", "lights") +
    OtherParts(cs, OtherTypes(cs))
  }

  /** `generateAutoLabel(circuits)`. */
  function AutoLabel(cs: seq<UiCircuit>): string {
    JoinLabel(AutoLabelParts(cs))
  }

  /** `labelParts.length > 0 ? labelParts.join(', ') : ''`. */
  function JoinLabel(parts: seq<string>): string {
    if |parts| > 0 then Join(parts, ", ") else ""
  }

  lemma AutoLabelPartsNonBlank(cs: seq<UiCircuit>)
    ensures NonBlank(AutoLabelParts(cs))
  {
    PartsOfTypeNonBlank(cs, "appliance");
    PartsOfTypeNonBlank(cs, "heating");
    PartsOfTypeNonBlank(cs, "subpanel");
    NonBlankAppend(PartsOfType(cs, "appliance"), PartsOfType(cs, "heating"));
    NonBlankAppend(PartsOfType(cs, "appliance") + PartsOfType(cs, "heating"), PartsOfType(cs, "subpanel"));
    var a := SingleParts(cs) + GroupParts(cs, "outlet", "outlets");
    NonBlankAppend(SingleParts(cs), GroupParts(cs, "outlet", "outlets"));
    NonBlankAppend(a, GroupParts(cs, "lighting", "lights"));
    OtherPartsNonBlank(cs, OtherTypes(cs));
    NonBlankAppend(a + GroupParts(cs, "lighting", "lights"), OtherParts(cs, OtherTypes(cs)));
  }

  /** Every circuit contributes to some part. */
  lemma AutoLabelPartsExist(cs: seq<UiCircuit>)
    requires cs != []
    ensures AutoLabelParts(cs) != []
  {
    var t := TypeKey(cs[0]);
    if t == "outlet" || t == "lighting" {
      assert GroupParts(cs, t, if t == "outlet" then "outlets" else "lights") != [];
    } else if t in KnownTypes {
      PartsOfTypeEmptyIff(cs, t);
      assert SingleParts(cs) != [];
    } else {
      var others := OtherTypes(cs);
      assert t in others;
      var k :| 0 <= k < |others| && others[k] == t;
      PartsOfTypeEmptyIff(cs, t);
      OtherPartsEmptyIff(cs, others);
    }
  }

  /** A breaker gets an automatic label exactly when it has a circuit. */
  lemma AutoLabelEmptyIff(cs: seq<UiCircuit>)
    ensures AutoLabel(cs) == "" <==> cs == []
  {
    if cs != [] {
      AutoLabelPartsNonBlank(cs);
      AutoLabelPartsExist(cs);
      JoinEmptyIff(AutoLabelParts(cs), ", ");
    } else {
      assert SingleParts(cs) == [];
      OtherTypesOfKnown(cs);
    }
  }

  /** One appliance, heating or subpanel circuit with notes is labelled by
      its trimmed notes alone. */
  lemma SingleCircuitWithNotes(c: UiCircuit)
    requires TypeKey(c) == "appliance" || TypeKey(c) == "heating" || TypeKey(c) == "subpanel"
    requires HasText(c.notes)
    ensures AutoLabel([c]) == Trim(c.notes.value)
  {
    var part := PartOf(c, TypeKey(c));
    OneSinglePart(c);
    NoGroupParts(c);
    assert TypeKey(c) in KnownTypes;
    KnownOnlyParts(c, [part]);
  }

  /** One circuit of a type outside the five known ones, with notes, is
      labelled by its trimmed notes alone, as the last loop of
      `generateAutoLabel` pushes them. */
  lemma SingleOtherCircuitWithNotes(c: UiCircuit)
    requires TypeKey(c) !in KnownTypes
    requires HasText(c.notes)
    ensures AutoLabel([c]) == Trim(c.notes.value)
  {
    var t := TypeKey(c);
    var part := PartOf(c, t);
    OnePartsOfType(c, "appliance");
    OnePartsOfType(c, "heating");
    OnePartsOfType(c, "subpanel");
    assert SingleParts([c]) == [];
    NoGroupPart(c, "outlet", "outlets");
    NoGroupPart(c, "lighting", "lights");
    OneOtherType(c);
    OnePartsOfType(c, t);
    assert OtherParts([c], [t]) == OtherParts([c], []) + PartsOfType([c], t);
    assert AutoLabelParts([c]) == [part];
  }

  /** One circuit of an unknown type is the one other type. */
  lemma OneOtherType(c: UiCircuit)
    requires TypeKey(c) !in KnownTypes
    ensures OtherTypes([c]) == [TypeKey(c)]
  {
    var t := TypeKey(c);
    assert TypeKeys([c]) == [t];
    assert OtherKeys([t]) == [t] + OtherKeys([]);
    assert Dedup([t]) == [t];
  }

  /** One appliance, heating or subpanel circuit gives exactly its part. */
  lemma OneSinglePart(c: UiCircuit)
    requires TypeKey(c) == "appliance" || TypeKey(c) == "heating" || TypeKey(c) == "subpanel"
    ensures SingleParts([c]) == [PartOf(c, TypeKey(c))]
  {
    var t := TypeKey(c);
    OnePartsOfType(c, "appliance");
    OnePartsOfType(c, "heating");
    OnePartsOfType(c, "subpanel");
    if t == "appliance" {
      assert SingleParts([c]) == [PartOf(c, t)] + [] + [];
    } else if t == "heating" {
      assert SingleParts([c]) == [] + [PartOf(c, t)] + [];
    } else {
      assert SingleParts([c]) == [] + [] + [PartOf(c, t)];
    }
  }

  /** One appliance, heating or subpanel circuit gives no outlet or
      lighting part. */
  lemma NoGroupParts(c: UiCircuit)
    requires TypeKey(c) == "appliance" || TypeKey(c) == "heating" || TypeKey(c) == "subpanel"
    ensures GroupParts([c], "outlet", "outlets") == [] && GroupParts([c], "lighting", "lights") == []
  {
    var t := TypeKey(c);
    assert t != "outlet" && t != "lighting" by {
      assert t[0] != 'o' && t[0] != 'l';
    }
    NoGroupPart(c, "outlet", "outlets");
    NoGroupPart(c, "lighting", "lights");
  }

  /** One outlet or light is labelled with its room and the type's plural,
      or the plural alone when the room is blank. */
  lemma SingleOutletOrLight(c: UiCircuit)
    requires TypeKey(c) == "outlet" || TypeKey(c) == "lighting"
    ensures var typeName := if TypeKey(c) == "outlet" then "outlets" else "lights";
      AutoLabel([c]) == if HasText(c.room) && Trim(c.room.value) != "General"
        then Trim(c.room.value) + " " + typeName else typeName
  {
    var cs := [c];
    var t := TypeKey(c);
    var typeName := if t == "outlet" then "outlets" else "lights";
    var room := RoomOrGeneral(c);
    var part := GroupPart([room], typeName);
    OneRoomGroupPart(room, typeName);
    assert room == "General" <==> !(HasText(c.room) && Trim(c.room.value) != "General");
    OneOutletOrLightPart(c, t, typeName);
    var parts := SingleParts(cs) + GroupParts(cs, "outlet", "outlets") + GroupParts(cs, "lighting", "lights");
    if t == "outlet" {
      assert parts == [] + [part] + [];
    } else {
      assert parts == [] + [] + [part];
    }
    KnownOnlyParts(c, parts);
  }

  /** A circuit of another type gives no outlet or lighting part. */
  lemma NoGroupPart(c: UiCircuit, t: string, typeName: string)
    requires TypeKey(c) != t
    ensures GroupParts([c], t, typeName) == []
  {
    assert forall i :: 0 <= i < |[c]| ==> TypeKey([c][i]) != t;
  }

  /** The parts of one circuit for the type `t`. */
  lemma OnePartsOfType(c: UiCircuit, t: string)
    ensures PartsOfType([c], t) == if TypeKey(c) == t then [PartOf(c, t)] else []
  {
    assert [c][..0] == [];
  }

  /** The single-room outlet or lighting part. */
  lemma OneRoomGroupPart(room: string, typeName: string)
    ensures GroupPart([room], typeName) == if room == "General" then typeName else room + " " + typeName
  {
  }

  /** A circuit of a known type adds no other part, so the label is the
      join of the parts before the other types. */
  lemma KnownOnlyParts(c: UiCircuit, parts: seq<string>)
    requires TypeKey(c) in KnownTypes
    requires parts == SingleParts([c]) + GroupParts([c], "outlet", "outlets") + GroupParts([c], "lighting", "lights")
    requires |parts| == 1
    ensures AutoLabel([c]) == parts[0]
  {
    OtherTypesOfKnown([c]);
    assert OtherParts([c], []) == [];
    assert AutoLabelParts([c]) == parts;
  }

  lemma OneOutletOrLightPart(c: UiCircuit, t: string, typeName: string)
    requires t == TypeKey(c) == "outlet" || t == TypeKey(c) == "lighting"
    requires typeName == if t == "outlet" then "outlets" else "lights"
    ensures SingleParts([c]) == []
    ensures GroupParts([c], t, typeName) == [GroupPart([RoomOrGeneral(c)], typeName)]
    ensures GroupParts([c], if t == "outlet" then "lighting" else "outlet", if t == "outlet" then "lights" else "outlets") == []
  {
    var cs := [c];
    assert cs[..0] == [];
    assert RoomsOfType(cs, t) == [RoomOrGeneral(c)];
    DedupSingleton(RoomOrGeneral(c));
    assert RoomsOfType(cs, if t == "outlet" then "lighting" else "outlet") == [];
  }

  /** The loop of `generateAutoLabel` over the circuits of one type. */
  method PushTypeParts(parts: seq<string>, circuits: seq<UiCircuit>, t: string) returns (r: seq<string>)
    ensures r == parts + PartsOfType(circuits, t)
  {
    r := parts;
    var i := 0;
    while i < |circuits|
      invariant 0 <= i <= |circuits|
      invariant r == parts + PartsOfType(circuits[..i], t)
    {
      assert circuits[..i + 1][..i] == circuits[..i];
      if TypeKey(circuits[i]) == t {
        r := r + [PartOf(circuits[i], t)];
      }
      i := i + 1;
    }
    assert circuits[..i] == circuits;
  }

  /** The loop collecting the rooms of one type's outlets or lights. */
  method CollectRooms(circuits: seq<UiCircuit>, t: string) returns (rooms: seq<string>)
    ensures rooms == RoomsOfType(circuits, t)
  {
    rooms := [];
    var i := 0;
    while i < |circuits|
      invariant 0 <= i <= |circuits|
      invariant rooms == RoomsOfType(circuits[..i], t)
    {
      assert circuits[..i + 1][..i] == circuits[..i];
      if TypeKey(circuits[i]) == t {
        rooms := rooms + [RoomOrGeneral(circuits[i])];
      }
      i := i + 1;
    }
    assert circuits[..i] == circuits;
  }

  /** The outlet or lighting part as `generateAutoLabel` pushes it. */
  method PushGroupPart(parts: seq<string>, circuits: seq<UiCircuit>, t: string, typeName: string)
    returns (r: seq<string>)
    ensures r == parts + GroupParts(circuits, t, typeName)
  {
    var rooms := CollectRooms(circuits, t);
    var uniqueRooms := Dedup(rooms);
    r := parts;
    if |uniqueRooms| > 0 {
      r := r + [GroupPart(uniqueRooms, typeName)];
    }
  }

  /** The loop of `generateAutoLabel` over the remaining types. */
  method PushOtherParts(parts: seq<string>, circuits: seq<UiCircuit>, types: seq<string>)
    returns (r: seq<string>)
    ensures r == parts + OtherParts(circuits, types)
  {
    r := parts;
    var k := 0;
    while k < |types|
      invariant 0 <= k <= |types|
      invariant r == parts + OtherParts(circuits, types[..k])
    {
      assert types[..k + 1][..k] == types[..k];
      r := PushTypeParts(r, circuits, types[k]);
      k := k + 1;
    }
    assert types[..k] == types;
  }

  /** `generateAutoLabel(circuits)`, loop by loop: appliances, heating,
      subpanels, the merged outlets and lights, then every other type. */
  method GenerateAutoLabel(circuits: seq<UiCircuit>) returns (text: string)
    ensures text == AutoLabel(circuits)
    ensures text == "" <==> circuits == []
  {
    var parts := PushTypeParts([], circuits, "appliance");
    parts := PushTypeParts(parts, circuits, "heating");
    parts := PushTypeParts(parts, circuits, "subpanel");
    assert parts == SingleParts(circuits);
    parts := PushGroupPart(parts, circuits, "outlet", "outlets");
    parts := PushGroupPart(parts, circuits, "lighting", "lights");
    parts := PushOtherParts(parts, circuits, OtherTypes(circuits));
    assert parts == AutoLabelParts(circuits);
    text := JoinLabel(parts);
    AutoLabelEmptyIff(circuits);
  }

  // ---------------------------------------------------------------------------
  // Breaker types and slots in the breaker editor
  // ---------------------------------------------------------------------------

  /** The breaker `openBreakerModal(position, slot)` edits when nothing is
      cached at that address: a tandem in slot A or B, a single otherwise. */
  function NewBreaker(panelId: int, position: int, slot: string): (r: UiBreaker)
    ensures r.id.None? && r.position == position && SlotOf(r) == (if slot == "" then "single" else slot)
    ensures r.breakerType == Some(if slot != "single" then "tandem" else "single")
    ensures !r.critical && !r.monitor && !r.confirmed && r.amperage.None?
  {
    UiBreaker(None, panelId, position, Some(slot), Some(""), None, false, false, false,
              Some(if slot != "single" then "tandem" else "single"), false, false)
  }

  /** The type `populateBreakerForm` selects: the stored type, else the
      legacy flags (double pole first), else single. */
  function InferBreakerType(b: UiBreaker): (r: string)
    ensures TruthyText(b.breakerType) ==> r == b.breakerType.value
    ensures !TruthyText(b.breakerType) ==>
      (r == "double_pole" <==> b.doublePole) && (r == "tandem" <==> !b.doublePole && b.tandem) &&
      (r == "single" <==> !b.doublePole && !b.tandem)
  {
    if TruthyText(b.breakerType) then b.breakerType.value
    else if b.doublePole then "double_pole"
    else if b.tandem then "tandem"
    else "single"
  }

  /** The type selector is locked on the B half of a tandem. */
  function IsTandemB(b: UiBreaker): (r: bool)
    ensures r ==> b.slotPosition == Some("B")
    ensures b.slotPosition == Some("B") && InferBreakerType(b) == "tandem" ==> r
    ensures b.slotPosition == Some("B") && b.tandem ==> r
    ensures r ==> InferBreakerType(b) == "tandem" || b.tandem
  {
    (InferBreakerType(b) == "tandem" || b.tandem) && b.slotPosition == Some("B")
  }

  /** A breaker opened on an empty slot of a tandem shows as a tandem, and
      its type is locked exactly on slot B. */
  lemma NewBreakerType(panelId: int, position: int, slot: string)
    ensures slot != "single" && slot != "" ==> InferBreakerType(NewBreaker(panelId, position, slot)) == "tandem"
    ensures IsTandemB(NewBreaker(panelId, position, slot)) <==> slot == "B"
  {
  }

  /** `toggleBreakerType`: a double pole is refused (and the selector reset
      to single) when its second pole, two positions down, would fall off
      the panel. */
  function ToggleBreakerType(selected: string, position: int, panelSize: int): (r: string)
    ensures r == "double_pole" <==> selected == "double_pole" && position + 2 <= panelSize
    ensures r != selected ==> r == "single"
  {
    if selected == "double_pole" && position > panelSize - 2 then "single" else selected
  }

  /** `formData.get('breakerType') || currentBreaker.breaker_type || 'single'`. */
  function SaveType(formType: Option<string>, current: UiBreaker): (r: string)
    ensures r != ""
    ensures TruthyText(formType) ==> r == formType.value
    ensures !TruthyText(formType) && TruthyText(current.breakerType) ==> r == current.breakerType.value
    ensures !TruthyText(formType) && !TruthyText(current.breakerType) ==> r == "single"
  {
    TextOr(formType, TextOr(current.breakerType, "single"))
  }

  /** The slot `saveBreakerForm` writes, as the code has it: a tandem keeps
      the current slot, or A when there is none. */
  function SaveSlotAsWritten(breakerType: string, current: UiBreaker): (r: string)
    ensures breakerType != "tandem" ==> r == "single"
    ensures breakerType == "tandem" ==> r == TextOr(current.slotPosition, "A")
    ensures breakerType == "tandem" && current.slotPosition == Some("single") ==> r == "single"
  {
    if breakerType == "tandem" then TextOr(current.slotPosition, "A") else "single"
  }

  /** The slot `saveBreakerForm` should write: a tandem keeps slot A or B
      and otherwise goes to A, as the server will store it. */
  function SaveSlot(breakerType: string, current: UiBreaker): (r: string)
    ensures breakerType == "tandem" ==> r != "single" && r != ""
    ensures breakerType != "tandem" ==> r == "single"
    ensures breakerType == "tandem" && SlotOf(current) != "single" ==> r == SlotOf(current)
  {
    if breakerType == "tandem" then
      if SlotOf(current) != "single" then SlotOf(current) else "A"
    else "single"
  }

  /** The body `saveBreakerForm` sends, before the server normalises it. */
  datatype BreakerForm = BreakerForm(
    labelText: Option<string>, amperage: Option<int>, critical: Option<string>,
    monitor: Option<string>, confirmed: Option<string>, breakerType: Option<string>)

  datatype BreakerFormData = BreakerFormData(
    labelText: Option<string>, amperage: Option<int>, critical: bool, monitor: bool,
    confirmed: bool, breakerType: string, slotPosition: string)

  /** The `breakerData` of `saveBreakerForm`, with the slot as the code
      writes it; the amperage arrives parsed (absent for an empty field). */
  function SaveBreakerForm(form: BreakerForm, current: UiBreaker): (r: BreakerFormData)
    ensures r.critical <==> form.critical == Some("on")
    ensures r.monitor <==> form.monitor == Some("on")
    ensures r.confirmed <==> form.confirmed == Some("on")
    ensures r.breakerType == SaveType(form.breakerType, current)
    ensures r.slotPosition == SaveSlotAsWritten(r.breakerType, current)
    ensures r.labelText == form.labelText && r.amperage == form.amperage
  {
    var kind := SaveType(form.breakerType, current);
    BreakerFormData(form.labelText, form.amperage, form.critical == Some("on"),
                    form.monitor == Some("on"), form.confirmed == Some("on"), kind, SaveSlotAsWritten(kind, current))
  }

  /** The form data with the corrected slot of `SaveSlot`. */
  function CorrectedFormData(form: BreakerForm, current: UiBreaker): BreakerFormData {
    var d := SaveBreakerForm(form, current);
    d.(slotPosition := SaveSlot(d.breakerType, current))
  }

  /** The request body the form data makes. */
  function BreakerBody(d: BreakerFormData, current: UiBreaker): RawBreaker {
    RawBreaker(Some(current.panelId), Some(current.position), d.labelText, d.amperage,
               Some(d.monitor), Some(d.confirmed), Some(d.breakerType), Some(d.slotPosition))
  }

  /** With the corrected slot, the server stores the type and slot the
      editor sends, so the key the editor caches the saved breaker under is
      the stored row's address. */
  lemma SavedSlotIsStored(form: BreakerForm, current: UiBreaker, operation: string)
    ensures var d := CorrectedFormData(form, current);
      var stored := ProcessBreakerData(BreakerBody(d, current), operation);
      stored.breakerType == d.breakerType && stored.slotPosition == d.slotPosition
  {
  }

  /** As written, the server stores the slot the editor sends except for a
      tandem sent with slot `single`, which it stores as A. */
  lemma SavedSlotAsWrittenIsStored(form: BreakerForm, current: UiBreaker, operation: string)
    ensures var d := SaveBreakerForm(form, current);
      var stored := ProcessBreakerData(BreakerBody(d, current), operation);
      stored.breakerType == d.breakerType &&
      (stored.slotPosition == d.slotPosition <==> !(d.breakerType == "tandem" && d.slotPosition == "single"))
  {
  }

  /** A breaker created on an empty half of a tandem is saved in that half,
      and so cached again under the key it was opened with. */
  lemma NewTandemHalfKeepsSlot(panelId: int, position: int, slot: string, form: BreakerForm)
    requires slot == "A" || slot == "B"
    requires !TruthyText(form.breakerType) || form.breakerType.value == "tandem"
    ensures var current := NewBreaker(panelId, position, slot);
      var d := SaveBreakerForm(form, current);
      d.breakerType == "tandem" && d.slotPosition == slot &&
      BreakerKey(position, d.slotPosition) == BreakerKey(position, slot)
  {
  }

  /** As the code is written, a single-slot breaker switched to tandem is
      cached in slot `single` while the server stores it in slot A. */
  lemma SaveSlotAsWrittenDisagrees(panelId: int, position: int)
    ensures var current := NewBreaker(panelId, position, "single");
      var d := SaveBreakerForm(BreakerForm(None, None, None, None, None, Some("tandem")), current);
      d.slotPosition == "single" &&
      ProcessBreakerData(BreakerBody(d, current), "create").slotPosition == "A"
  {
  }
}
