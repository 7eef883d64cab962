# Breaker panel helper, modelled in Dafny

A model of the core of a small web application for documenting a home's
electrical panels. The model covers both halves of the application.

On the server:

- the SQLite schema: four tables with their CHECK, UNIQUE and FOREIGN KEY
  constraints, plus the ON DELETE actions;
- the database service: connection state, `get`/`all`/`run`, and
  transactions;
- the error translator, which turns SQLite errors into HTTP statuses;
- the input normalisers for breaker and circuit bodies;
- the breaker-by-position lookup and the transactional "move breaker"
  route.

In the browser:

- the application's global circuit cache and its panel ordering;
- the circuit list's filter and sort;
- the panel renderer's breaker cache and its auto-generated breaker labels;
- the breaker editor's type and slot rules;
- the move dialog: its state, its preview and the request it sends.

Modules, one per source file:

| file | module | models |
|---|---|---|
| `common.dfy` | `Common` | JavaScript helpers the core relies on: truthiness, `trim`, `toLowerCase`, `includes`, `join`, number-to-text, `localeCompare`, `new Set`, `Array.prototype.sort` |
| `schema.dfy` | `Schema` | the tables of `services/database-service.js`, and each SQL statement as a function on them |
| `database.dfy` | `Store` | the `DatabaseService` class |
| `errors.dfy` | `ErrorHandling` | `services/error-handler.js` |
| `routes.dfy` | `Routes` | the lookup by position and the move route of `routes.js` |
| `client_data.dfy` | `ClientData` | the JSON records the browser receives |
| `app.dfy` | `PanelApp` | `public/app.js` (`BreakerPanelApp`) |
| `circuit_list.dfy` | `CircuitListing` | `public/circuit-list.js` (`CircuitListManager`) |
| `panel_renderer.dfy` | `PanelRendering` | `public/panel-renderer.js` (`PanelRenderer`) |
| `move_manager.dfy` | `MovePreview` | `public/move-manager.js` (`MoveManager`) |

How the source is represented:

- Objects whose fields the source updates become classes with `modifies`
  clauses: `DatabaseService`, `BreakerPanelApp`, `CircuitListManager`,
  `PanelRenderer` and `MoveManager`. Their methods are proved against
  specification functions, and the properties are proved about those
  functions.
- The whole move route is one method. It is proved equal to a function
  `Move` from tables to a response and new tables. The lemmas about `Move`
  state atomicity, constraint preservation and the swap and relocate
  outcomes.
- The fetch API, the DOM and the file system are out of scope. What they
  return becomes a parameter (`fetched`, `moved`, `openError`).

The model follows the code where the error translator expects more than
the schema declares:

- `panels.name` is not declared UNIQUE in `createTables`
  (services/database-service.js:58). A second panel with the same name is
  accepted (`Schema.InsertPanel`). The `panels.name` branch of
  `handleDatabaseError` (services/error-handler.js:17) can therefore never
  fire from the schema as written.

## Model

| member | source | states |
|---|---|---|
| Common.Trim | services/error-handler.js:191 | the result is the slice of the input between a run of leading and a run of trailing white space, and starts and ends with non-space |
| Common.TrimIdempotent | services/error-handler.js:191 | trimming twice is trimming once |
| Common.TrimEmptyIffAllSpace | public/panel-renderer.js:353 | `s.trim()` is falsy exactly when `s` is all white space |
| Common.ToLower | public/circuit-list.js:109 | lower-casing keeps the length and maps each character |
| Common.ToLowerIdempotent | public/circuit-list.js:80 | lower-casing twice is lower-casing once |
| Common.JoinEmptyIff | public/panel-renderer.js:453 | joining non-empty parts gives "" exactly when there are no parts |
| Common.ParseNatToString | routes.js:86 | the decimal text of a position parses back to the position |
| Common.IntToStringInjective | public/panel-renderer.js:124 | different numbers have different decimal texts |
| Common.LexLeIsTotalPreorder | public/app.js:195 | the `localeCompare` order is total and transitive, as `sort` requires |
| Common.LexCompareSign | public/circuit-list.js:367 | the sign of `localeCompare` agrees with the order |
| Common.Dedup | public/panel-renderer.js:396 | `[...new Set(xs)]` has the same members as `xs`, no duplicates, and keeps the order of first occurrence |
| Common.FirstIndex | public/panel-renderer.js:396 | the first position holding the value: it holds it and no earlier one does |
| Common.InsertionSort | public/circuit-list.js:360-372 | `sort` returns a permutation of its input, sorted by the comparator |
| Schema.ParseSlot | services/database-service.js:67 | exactly 'single', 'A' and 'B' pass the slot CHECK |
| Schema.ParseBreakerType | services/database-service.js:71 | exactly 'single', 'double_pole' and 'tandem' pass the type CHECK |
| Schema.ParseLevel | services/database-service.js:80 | exactly the four levels pass the level CHECK |
| Schema.EmptyTablesValid | services/database-service.js:56-96 | a fresh database satisfies every constraint |
| Schema.BreakerAt | routes.js:173-176 | the address lookup returns a row at that address, or none exists |
| Schema.BreakerAtUnique | services/database-service.js:75 | under UNIQUE(panel_id, position, slot_position) the row at an address is the only one |
| Schema.InsertBreaker | services/database-service.js:63-76 | an accepted insert adds exactly the parsed row under the next id |
| Schema.InsertAtTakenAddressFails | services/database-service.js:75 | a second breaker at a taken address is refused with the UNIQUE error |
| Schema.SetCircuitBreaker | services/database-service.js:85-96 | re-pointing a circuit fails with the FOREIGN KEY error exactly when the circuit exists and the breaker does not; otherwise only that circuit's `breaker_id` changes |
| Schema.DeleteBreaker | services/database-service.js:92 | deleting a breaker removes it and exactly its circuits (ON DELETE CASCADE); every other row keeps its value |
| Schema.DeletePanel | services/database-service.js:73 | deleting a panel removes it, its breakers and their circuits; the remaining circuits lose a `subpanel_id` naming it (SET NULL) and keep everything else |
| Schema.DeleteRoom | services/database-service.js:93 | deleting a room keeps its circuits with `room_id` null (SET NULL) |
| Schema.InsertPanel | services/database-service.js:56-61 | a panel is accepted exactly when the name is non-empty and the size is 12 to 42 |
| Schema.InsertRoom | services/database-service.js:78-83 | a room is accepted exactly when the name is non-empty and unused and the level is known |
| Schema.InsertBreakerKeepsValid | services/database-service.js:63-76 | an accepted breaker insert keeps every constraint |
| Schema.SetCircuitBreakerKeepsValid | services/database-service.js:85-96 | an accepted circuit update keeps every constraint |
| Schema.DeleteBreakerKeepsValid | services/database-service.js:92 | the cascade leaves no dangling circuit |
| Schema.DeletePanelKeepsValid | services/database-service.js:73 | the panel cascade and SET NULL leave no dangling reference |
| Schema.DeleteRoomKeepsValid | services/database-service.js:93 | SET NULL on rooms leaves no dangling reference |
| Schema.InsertPanelKeepsValid | services/database-service.js:56-61 | an accepted panel insert keeps every constraint |
| Schema.InsertRoomKeepsValid | services/database-service.js:78-83 | an accepted room insert keeps every constraint |
| Store.AssignCircuits | routes.js:188-193 | running the UPDATE once per listed id re-points exactly those circuits |
| Store.AssignCircuitsStep | routes.js:188-193 | one more UPDATE of the loop re-points one more listed circuit |
| Store.DatabaseService.constructor | services/database-service.js:9-12 | a new service has no connection and is not initialised |
| Store.DatabaseService.Initialize | services/database-service.js:19-24 | it succeeds exactly when the permission check and the open succeed; existing rows are kept |
| Store.DatabaseService.Close | services/database-service.js:236-251 | without a connection it does nothing; a successful close clears `isInitialized` |
| Store.DatabaseService.EnsureInitialized | services/database-service.js:257-261 | it fails exactly when not initialised or not connected, with the fixed message |
| Store.DatabaseService.GetBreaker | services/database-service.js:113-121 | `get` by id returns the row exactly when it exists, or the not-initialised error |
| Store.DatabaseService.FindBreakerAt | services/database-service.js:113-121 | `get` by address returns the id of the row at that address, or none exists |
| Store.DatabaseService.CircuitIdsOf | services/database-service.js:129-137 | `all` returns exactly the circuits of the breaker, without repeats |
| Store.DatabaseService.InsertBreaker | services/database-service.js:145-153 | `run` of the INSERT applies `Schema.InsertBreaker` or reports its error |
| Store.DatabaseService.SetCircuitBreaker | services/database-service.js:145-153 | `run` of the UPDATE applies `Schema.SetCircuitBreaker` or reports its error |
| Store.DatabaseService.ReassignCircuits | routes.js:188-193 | the UPDATE loop leaves the tables as `AssignCircuits` describes |
| Store.DatabaseService.DeleteBreaker | services/database-service.js:145-153 | `run` of the DELETE applies `Schema.DeleteBreaker` |
| Store.DatabaseService.Begin | services/database-service.js:160-162 | BEGIN takes a snapshot; it is refused inside a transaction |
| Store.DatabaseService.Commit | services/database-service.js:166 | COMMIT keeps the tables and drops the snapshot |
| Store.DatabaseService.Rollback | services/database-service.js:168-171 | ROLLBACK restores the tables as they were at BEGIN |
| ErrorHandling.HandleDatabaseError | services/error-handler.js:12-101 | UNIQUE gives 409 with the message of the first table named (panels, rooms, breakers, else generic); FOREIGN KEY gives 400 with the invalid-reference text in a move and otherwise the column's text; the constraint codes decide only when the message does not; otherwise 500 with the message hidden in production |
| ErrorHandling.ForeignKeyMessage | services/error-handler.js:50-77 | the first column named by the message or the context field decides the text, in the order panel, breaker, room, subpanel; else the generic text |
| ErrorHandling.SubpanelColumnReadAsPanel | services/error-handler.js:50-72 | a message naming `subpanel_id` also contains `panel_id`, so it is answered as an invalid panel |
| ErrorHandling.MoveForeignKeyIsInvalidReference | services/error-handler.js:42-49 | a foreign-key failure during a move is a 400 "Invalid panel or breaker reference" |
| ErrorHandling.MessageTakesPrecedenceOverCode | services/error-handler.js:16-94 | when the message names a constraint, the error code does not change the answer |
| ErrorHandling.ConstraintErrorsAreClientErrors | services/error-handler.js:82-94 | any SQLITE_CONSTRAINT error is a 400 or 409, never a 500 |
| ErrorHandling.HandleValidationError | services/error-handler.js:108-113 | a validation error is a 400 carrying the message |
| ErrorHandling.HandleNotFoundError | services/error-handler.js:120-125 | a missing resource is a 404 "<type> not found" |
| ErrorHandling.TrimmedOrNull | services/error-handler.js:191 | `s?.trim() || null` is null for a missing or blank text and the trimmed text otherwise |
| ErrorHandling.ProcessBreakerData | services/error-handler.js:170-206 | type defaults to single and slot to 'single'; a tandem left on 'single' gets slot 'A', every other slot is kept; the label is trimmed or null; a falsy amperage is null; `monitor` and `confirmed` are true exactly when sent true; panel and position only on create |
| ErrorHandling.ProcessBreakerDataIdempotent | services/error-handler.js:170-206 | normalising an already normalised breaker changes nothing |
| ErrorHandling.ProcessCircuitData | services/error-handler.js:214-230 | falsy room, subpanel and type become null and truthy ones are kept; the notes are trimmed or null; breaker_id only on create |
| ErrorHandling.ProcessCircuitDataIdempotent | services/error-handler.js:214-230 | normalising an already normalised circuit changes nothing |
| Routes.SwapInTransaction | routes.js:186-200 | the two UPDATE loops trade the circuits of the two breakers |
| Routes.RelocateInTransaction | routes.js:201-226 | the destination row is inserted with the source's settings and empty label, then the source's circuits move to it |
| Routes.DropSourceIfEmpty | routes.js:228-237 | the source breaker is deleted exactly when it has no circuits left |
| Routes.MoveInTransaction | routes.js:166-238 | the transaction body succeeds or fails exactly as `MoveInTables` |
| Routes.MoveBreaker | routes.js:145-249 | the route's response and final tables are those of `Move`, and no transaction stays open |
| Routes.SwapByTwoPasses | routes.js:188-200 | the two sequential UPDATE passes equal a simultaneous swap |
| Routes.RetargetByPass | routes.js:220-225 | one UPDATE pass moves every source circuit to the new breaker |
| Routes.MoveFailsAtomically | routes.js:166-172 | a move answers 200 exactly when the transaction succeeds; otherwise the tables are unchanged |
| Routes.MissingFieldsRefused | routes.js:153-156 | a request lacking a truthy source, destination panel or position is a 400 and changes nothing |
| Routes.UnknownSourceRefused | routes.js:159-164 | an unknown source breaker is a 404 and changes nothing |
| Routes.MoveKeepsValid | routes.js:166-238 | every move outcome keeps every schema constraint |
| Routes.SwapOutcome | routes.js:186-200 | onto an occupied address, the two breakers trade circuits and the source goes if left empty |
| Routes.SwapTradesCircuits | routes.js:188-200 | after the swap the source holds exactly the destination's former circuits |
| Routes.RelocateOutcome | routes.js:201-226 | onto a free address, a new breaker takes the circuits and the source is deleted |
| Routes.RelocatedRowAccepted | routes.js:203-217 | the INSERT at a free valid address on a live panel succeeds |
| Routes.RetargetEmpties | routes.js:220-225 | after relocation the source holds no circuits |
| Routes.MoveErrorIsInvalidReference | routes.js:244-247 | any failure inside the move transaction is answered 400 "Invalid panel or breaker reference" |
| Routes.ConstraintErrorInMove | routes.js:246 | a constraint error in move context is the invalid-reference answer |
| Routes.RelocateErrorIsConstraint | routes.js:203-217 | a refused relocation INSERT raises a CHECK or FOREIGN KEY error, never UNIQUE |
| Routes.RefusedDestination | routes.js:201-217 | a free but invalid destination (bad slot, unknown panel) is a 400 and changes nothing |
| Routes.MoveOntoItself | routes.js:186-237 | moving a breaker onto its own address changes no circuit and deletes it only if it had none |
| Routes.OtherCircuitsUntouched | routes.js:186-226 | circuits of neither breaker keep their row |
| Routes.LookupByPosition | routes.js:84-100 | 'both' returns all rows at the position in slot order; otherwise the one row at the slot (default 'single') or none |
| Routes.BreakersAtPosition | routes.js:94-95 | every row at the position, each once, in slot text order |
| Routes.SlotOrderIsTextOrder | routes.js:94 | ORDER BY slot_position sorts A before B before single |
| PanelApp.CacheSet | public/app.js:202-204 | `Map.set` keeps the cache well formed |
| PanelApp.CacheSetSemantics | public/app.js:202-204 | `set` stores the circuit under its id; a new id goes last; an existing id keeps its place |
| PanelApp.CacheDelete | public/app.js:206-208 | `delete` removes that id and keeps every other entry |
| PanelApp.CacheOf | public/app.js:174-179 | filling the cache circuit by circuit gives a well-formed map |
| PanelApp.CacheOfKeys | public/app.js:174-179 | the cache's keys are exactly the loaded circuit ids |
| PanelApp.CacheOfRoundTrip | public/app.js:174-179 | with distinct ids, the cache's values in insertion order are the loaded circuits |
| PanelApp.CacheOfLastWins | public/app.js:176 | with a repeated id, the last circuit set under it is the one kept |
| PanelApp.ByBreaker | public/app.js:210-213 | the circuits listed are exactly those with that breaker id |
| PanelApp.StoredCircuitIsListed | public/app.js:202-213 | a circuit just stored is listed under its breaker |
| PanelApp.RemovedCircuitIsNotListed | public/app.js:206-213 | a circuit just removed is not listed under any breaker |
| PanelApp.SubpanelIds | public/app.js:182-186 | the set holds exactly the truthy `subpanel_id` of the 'subpanel' circuits |
| PanelApp.PanelOrderIsTotalPreorder | public/app.js:189-196 | the panel comparator is a total preorder |
| PanelApp.SortPanels | public/app.js:189-196 | a permutation of the panels, main panels first, each group in name order |
| PanelApp.CreatePanelOptions | public/app.js:215-230 | one option per panel in order, with the 🏠 prefix exactly for main panels |
| PanelApp.FindPanelIndex | public/app.js:256 | `findIndex` returns the first matching index, or -1 when none matches |
| PanelApp.DeleteCurrentPanelGuard | public/app.js:341-344 | deletion is refused exactly when at most one panel exists |
| PanelApp.UpdatePanelControls | public/app.js:255-260 | delete is disabled exactly when deletion would be refused |
| PanelApp.ControlsOnListedPanel | public/app.js:255-260 | on a listed panel, previous is disabled exactly on the first and next exactly on the last |
| PanelApp.ControlsOffList | public/app.js:255-260 | without a listed current panel, previous is disabled, and next is disabled only when no panel exists |
| PanelApp.RoomsOfLevel | public/app.js:934-938 | the group of a level holds exactly the rooms of that level |
| PanelApp.RoomsOfLevelAppend | public/app.js:934-938 | the group keeps the rooms' order: grouping two runs of rooms is grouping each and concatenating |
| PanelApp.LoadRoomsList | public/app.js:925-970 | no rooms gives the empty message; otherwise four groups in the order upper, main, basement, outside |
| PanelApp.LevelsPartition | public/app.js:934-949 | the four level groups together hold every room of a known level exactly once |
| PanelApp.RoomsListPartition | public/app.js:940-967 | the displayed groups hold every room of a known level exactly once; rooms of other levels are not shown |
| PanelApp.CollectCircuits | public/app.js:172-179 | the loop over panels yields all circuits in order and the cache built from them |
| PanelApp.CollectPanelCircuits | public/app.js:175-178 | the inner loop appends the panel's circuits and sets each into the cache |
| PanelApp.BreakerPanelApp.constructor | public/app.js:12-31 | the application starts with no panel, no breaker, empty lists, empty cache and sort by breaker ascending |
| PanelApp.BreakerPanelApp.LoadAllPanels | public/app.js:157-199 | the cache is rebuilt from all loaded circuits; the panels are stored main first, each group in name order |
| PanelApp.BreakerPanelApp.UpdateCircuitCache | public/app.js:202-204 | the cache becomes `CacheSet` of the old one; nothing else changes |
| PanelApp.BreakerPanelApp.RemoveCircuitFromCache | public/app.js:206-208 | the cache becomes `CacheDelete` of the old one; nothing else changes |
| PanelApp.BreakerPanelApp.GetCircuitsByBreaker | public/app.js:210-213 | exactly the cached circuits of that breaker |
| CircuitListing.SearchTerm | public/circuit-list.js:80 | the search term is the input with each character lower-cased in place |
| CircuitListing.FilterCircuitData | public/circuit-list.js:99-141 | a row is kept exactly when it passes the search, room, type and flag filters |
| CircuitListing.FilterKeepsOrder | public/circuit-list.js:100 | filtering keeps the rows' order |
| CircuitListing.FilterIdempotent | public/circuit-list.js:99-141 | filtering twice is filtering once |
| CircuitListing.NoFiltersShowEverything | public/circuit-list.js:99-141 | with every filter empty the full list is shown |
| CircuitListing.SearchFindsPosition | public/circuit-list.js:103-113 | the breaker's position number is always findable by search |
| CircuitListing.SearchFindsLabel | public/circuit-list.js:103-113 | the breaker's label, lower-cased, is always findable by search |
| CircuitListing.GetLinkedPanelName | public/circuit-list.js:422-428 | a subpanel circuit gives the lower-cased name of the first panel it feeds; any other circuit gives "" |
| CircuitListing.GetSortValues | public/circuit-list.js:375-420 | breaker gives the position, amperage its value or 0, flags 2 for critical plus 1 for monitor; label, room, type and notes give their lower-cased text; linked the linked panel name; any other column equal empty texts |
| CircuitListing.RowBeforeMeaning | public/circuit-list.js:359-372 | ascending order compares the column values, and descending order reverses them |
| CircuitListing.RowOrderIsTotalPreorder | public/circuit-list.js:359-372 | the row comparator is a total preorder for every column and direction |
| CircuitListing.NextSort | public/circuit-list.js:327-334 | clicking the sorted column flips asc to desc; anything else sorts that column ascending |
| CircuitListing.NextSortTwiceRestores | public/circuit-list.js:327-334 | two clicks on the ascending column restore the sort |
| CircuitListing.CircuitListManager.SortCircuitData | public/circuit-list.js:359-373 | the rows become a permutation sorted by the current column and direction |
| CircuitListing.CircuitListManager.SortCircuitList | public/circuit-list.js:327-339 | the sort state advances by `NextSort` and the rows are sorted by it |
| CircuitListing.CircuitListManager.ResetSortHeaders | public/circuit-list.js:354-357 | the sort returns to breaker ascending |
| CircuitListing.NamedRooms | public/circuit-list.js:52-55 | the distinct rooms are the non-blank room names of the rows |
| CircuitListing.ListableRoomIsTrimTest | public/circuit-list.js:53 | a room is listed exactly when it is truthy and its trimmed text is non-empty |
| CircuitListing.PopulateRoomFilter | public/circuit-list.js:48-65 | the options are exactly the non-blank room names, each once, in sorted order |
| CircuitListing.BreakerNumberCell | public/circuit-list.js:191-202 | a double pole shows `p-(p+2)` with 2P, a tandem the position and slot with T, any other the plain position with no indicator; the suffix is " — " and the label exactly when there is a label |
| CircuitListing.DoublePoleCellSpansTwoPositions | public/circuit-list.js:192-193 | a double-pole cell names both its positions |
| CircuitListing.TandemCellNamesSlot | public/circuit-list.js:194-196 | a tandem cell names slot A, and any slot other than A shows as B |
| PanelRendering.BreakerKeyInjective | public/panel-renderer.js:91 | different addresses never share a cache key |
| PanelRendering.BreakerCacheOf | public/panel-renderer.js:90-93 | every cached breaker sits under its own address key |
| PanelRendering.BreakerCacheFinds | public/panel-renderer.js:90-93 | every loaded breaker is found under its key, the last one winning a shared address |
| PanelRendering.CircuitGroupsAreFilters | public/panel-renderer.js:96-101 | each group holds exactly the circuits of its breaker, in order; empty groups do not exist |
| PanelRendering.PanelRenderer.constructor | public/panel-renderer.js:5-10 | a renderer starts with both caches empty |
| PanelRendering.BuildBreakerCache | public/panel-renderer.js:90-93 | the loop leaves the breaker cache `BreakerCacheOf` describes |
| PanelRendering.BuildCircuitGroups | public/panel-renderer.js:96-101 | the loop leaves the circuit cache `CircuitGroups` describes |
| PanelRendering.PanelRenderer.LoadBreakers | public/panel-renderer.js:78-102 | both caches are rebuilt from the panel's breakers and circuits |
| PanelRendering.PanelRenderer.OpenBreakerModal | public/panel-renderer.js:499-517 | the current breaker is the cached one at the address, otherwise a new blank breaker on the current panel |
| PanelRendering.PanelRenderer.UpdateBreakerCache | public/panel-renderer.js:123-126 | the breaker is stored under its address; the circuit cache is untouched |
| PanelRendering.PanelRenderer.StoreSavedBreaker | public/panel-renderer.js:749-752 | the saved breaker is stored under its address and, being the same object, also under the key it was opened from |
| PanelRendering.UpdateKeepsKeyedByAddress | public/panel-renderer.js:123-126 | caching a breaker under its address keeps every entry under its own address |
| PanelRendering.SlotChangeLeavesStaleEntry | public/panel-renderer.js:749-752 | saving a cached breaker in another slot leaves the old key holding it, so the cache is no longer keyed by address |
| PanelRendering.PanelRenderer.RemoveBreakerFromCache | public/panel-renderer.js:129-132 | the address key is removed; the circuit cache is untouched |
| PanelRendering.UpdateKeepsOtherAddresses | public/panel-renderer.js:123-126 | storing one breaker leaves every other address as it was |
| PanelRendering.RemoveUndoesUpdate | public/panel-renderer.js:123-132 | removing a freshly stored breaker at a new address restores the cache |
| PanelRendering.PartOf | public/panel-renderer.js:351-385 | a circuit's part is its trimmed notes when present; else "Subpanel" for a subpanel, "<room> <type>" when it has a room, and otherwise Appliance, Heating or the type name; never empty |
| PanelRendering.PartsOfTypeNonBlank | public/panel-renderer.js:351-385 | every appliance, heating or subpanel part is non-empty |
| PanelRendering.PartsOfTypeEmptyIff | public/panel-renderer.js:351-385 | a type contributes no parts exactly when no circuit has it |
| PanelRendering.RoomsOfTypeEmptyIff | public/panel-renderer.js:391-395 | a type has no rooms exactly when no circuit has it |
| PanelRendering.GroupPart | public/panel-renderer.js:405-435 | one room gives "<room> <type>" or just the type for General; two or three rooms join the named ones with " and ", adding " and general" when General is one of them; more gives "<count> room <type>" |
| PanelRendering.NamedOnlyCount | public/panel-renderer.js:424-427 | without duplicates, the named rooms plus one for General are all the rooms |
| PanelRendering.ManyRoomsCounted | public/panel-renderer.js:424-433 | with more than three distinct rooms the part is "<number of rooms> room <type>" |
| PanelRendering.GroupParts | public/panel-renderer.js:391-436 | an outlet or lighting group gives a part exactly when a circuit of that type exists |
| PanelRendering.OtherTypes | public/panel-renderer.js:439-440 | the other types are exactly the unknown types present among the circuits |
| PanelRendering.OtherTypesOfKnown | public/panel-renderer.js:440 | circuits of the five known types give no other types |
| PanelRendering.OtherPartsEmptyIff | public/panel-renderer.js:439-451 | the other types contribute no parts exactly when none of them has a circuit |
| PanelRendering.AutoLabelPartsNonBlank | public/panel-renderer.js:348-451 | every part of the label is non-empty |
| PanelRendering.AutoLabelEmptyIff | public/panel-renderer.js:453 | the auto label is "" exactly when the breaker has no circuits |
| PanelRendering.SingleCircuitWithNotes | public/panel-renderer.js:351-385 | a lone appliance, heating or subpanel circuit with notes is labelled by its trimmed notes |
| PanelRendering.SingleOtherCircuitWithNotes | public/panel-renderer.js:439-448 | a lone circuit of an unknown type with notes is labelled by its trimmed notes |
| PanelRendering.SingleOutletOrLight | public/panel-renderer.js:405-411 | a lone outlet or light is "<room> outlets/lights", or just the type name with no room |
| PanelRendering.GenerateAutoLabel | public/panel-renderer.js:339-454 | the imperative label builder computes `AutoLabel`, which is "" exactly for no circuits |
| PanelRendering.NewBreaker | public/panel-renderer.js:505-516 | a blank breaker at the address, typed tandem exactly when the slot is not 'single' |
| PanelRendering.InferBreakerType | public/panel-renderer.js:537-542 | the stored type when present, else the legacy flags, else single |
| PanelRendering.IsTandemB | public/panel-renderer.js:547 | the type selector is locked exactly for the B half of a tandem: slot B with a tandem type or the legacy tandem flag gives true, and true needs slot B and one of them |
| PanelRendering.NewBreakerType | public/panel-renderer.js:505-547 | a new breaker in slot A or B is a tandem, and locked exactly in slot B |
| PanelRendering.ToggleBreakerType | public/panel-renderer.js:709-718 | double pole is kept exactly when it fits in the panel; otherwise the selection falls back to single |
| PanelRendering.SaveType | public/panel-renderer.js:728 | the form's type when chosen, else the current breaker's type when present, else single; never empty |
| PanelRendering.SaveSlotAsWritten | public/panel-renderer.js:737 | as written, a tandem keeps its current slot, 'A' when it has none, and so keeps a 'single' slot (see Findings) |
| PanelRendering.SaveSlot | public/panel-renderer.js:737 | a tandem never gets the 'single' slot and keeps an A or B slot; a non-tandem is 'single' |
| PanelRendering.SaveBreakerForm | public/panel-renderer.js:724-738 | checkboxes are on exactly when ticked; label and amperage are passed on; type and slot follow `SaveType` and, as written, `SaveSlotAsWritten` |
| PanelRendering.SavedSlotAsWrittenIsStored | public/panel-renderer.js:737 | as written, the server stores the type sent, and the slot sent except exactly for a tandem sent with slot 'single' |
| PanelRendering.SavedSlotIsStored | public/panel-renderer.js:737 | with the corrected slot, the server normalises the sent body to the same type and slot the browser caches |
| PanelRendering.NewTandemHalfKeepsSlot | public/panel-renderer.js:499-517 | saving a new tandem half keeps the slot it was opened on |
| PanelRendering.SaveSlotAsWrittenDisagrees | public/panel-renderer.js:737 | as written, switching a single breaker to tandem caches slot 'single' while the server stores 'A' |
| MovePreview.OpenMove | public/move-manager.js:51-60 | without a current breaker it fails and changes nothing; otherwise it records the source and closes the editor |
| MovePreview.DefaultDestination | public/move-manager.js:93-97 | with a current panel of truthy id whose fetch succeeded, the destination becomes that panel; otherwise nothing changes |
| MovePreview.LoadAsWritten | public/move-manager.js:103-133 | as written, a fetched panel for a truthy id becomes the destination and the shared application's current panel; otherwise nothing changes (see Findings) |
| MovePreview.LoadIntended | public/move-manager.js:103-133 | the destination is loaded as written, and the application's current panel is kept |
| MovePreview.ChosenPanelBecomesSource | public/move-manager.js:131 | as written, after choosing panel P the preview's "From:" and the request's source panel are P |
| MovePreview.ChosenPanelKeepsSource | public/move-manager.js:131 | as intended, the preview and the request name the panel shown at opening as the source and P as the destination |
| MovePreview.OpenMoveDialog | public/move-manager.js:51-97 | fails exactly without a current breaker; otherwise records the source, closes the editor, then defaults the destination |
| MovePreview.OpenDefaultsToCurrentPanel | public/move-manager.js:93-97 | opening on a breaker of the shown panel makes that panel the destination |
| MovePreview.CancelAsWritten | public/move-manager.js:286-293 | as written, cancel clears the dialog and never reopens the editor (see Findings) |
| MovePreview.CancelAfterOpenLosesBreaker | public/move-manager.js:286-306 | opening then cancelling, as written, leaves no current breaker and the editor closed |
| MovePreview.CancelIntended | public/move-manager.js:286-293 | cancel clears the dialog and reopens the editor exactly when a source breaker was recorded |
| MovePreview.CancelUndoesOpen | public/move-manager.js:51-60 | opening then cancelling restores the current breaker and reopens its editor |
| MovePreview.FindDestinationBreaker | public/move-manager.js:162-165 | the breaker found is at the destination position and slot, and none exists when not found |
| MovePreview.SlotCircuits | public/move-manager.js:169-183 | the circuits shown are exactly the breaker's circuits in that slot |
| MovePreview.SlotCircuitsAppend | public/move-manager.js:169-183 | the selection keeps cache order: selecting from two runs is selecting from each and concatenating |
| MovePreview.GetRoomName | public/move-manager.js:316-320 | "No Room" without a room, the room's name when known, "Room <id>" otherwise |
| MovePreview.FindRoom | public/move-manager.js:318 | the room found has that id, and none exists when not found |
| MovePreview.PositionTextInjective | public/move-manager.js:204-205 | different positions or slots never read the same in the preview |
| MovePreview.CircuitLine | public/move-manager.js:214-216 | a line shows the room name, the type (the legacy type when none, else 'Unknown') and the notes or 'No notes' |
| MovePreview.CircuitLines | public/move-manager.js:212-217 | one line per circuit, in order |
| MovePreview.MovePreviewOf | public/move-manager.js:157-248 | no preview without a destination; a failure without a destination panel or source; otherwise a swap, an empty breaker or an empty position |
| MovePreview.SwapLinesAreDestinationCircuits | public/move-manager.js:229-238 | every swap line is a destination circuit at the destination address |
| MovePreview.MovePayloadOf | public/move-manager.js:250-265 | no destination is refused; otherwise the payload carries the source and destination as recorded |
| MovePreview.SentRequestHasRequiredFields | public/move-manager.js:256-264 | a sent move names the destination slot the server will look up, and passes its required-field check when ids are truthy |
| MovePreview.MoveManager.constructor | public/move-manager.js:5-12 | a new move manager holds no move state |
| MovePreview.MoveManager.OpenMoveModal | public/move-manager.js:51-97 | the state and current breaker change as `OpenMoveDialog` says; the current panel is replaced by the fetched copy as `LoadAsWritten` says |
| MovePreview.MoveManager.LoadDestinationPanel | public/move-manager.js:103-133 | the state and the shared current panel change as `LoadAsWritten` says; the rest of the application is untouched |
| MovePreview.MoveManager.SelectDestination | public/move-manager.js:138-155 | the destination position and slot are recorded and nothing else changes |
| MovePreview.MoveManager.ResetMoveState | public/move-manager.js:300-307 | every move field is cleared |
| MovePreview.MoveManager.CancelMove | public/move-manager.js:286-293 | the state and current breaker change as `CancelAsWritten` says: the dialog is cleared, the editor stays closed |
| MovePreview.MoveManager.ExecuteMove | public/move-manager.js:250-284 | the request sent is `MovePayloadOf`; after a successful move the state is cleared and no breaker is current |

## Left out

- The DOM and HTML: rendering, modals, drag and drop, notifications,
  printing, and the preview and table markup. Only the values they display
  are modelled.
- The fetch API client, `async`/`await` and concurrency. Server answers
  are parameters (`fetched`, `moved`, the circuit lists). The caches are
  assumed to be touched by one call at a time.
- The sqlite3 driver, the file system and `validateDatabasePermissions`.
  Their failures are parameters of `Initialize` and `Close`.
- `handleServerError`, `sendError`, `asyncHandler` and the global Express
  error handler: response plumbing around the modelled error translation.
- The option list that `loadPanelOptions` fills: DOM population. The
  default destination that `loadPanelOptions` chooses is modelled
  (`MovePreview.DefaultDestination`); its error catch is not.
- `renderDestinationPanel` sets the shared application's current panel,
  which is modelled (`MovePreview.LoadAsWritten`). The drawing and the
  breaker fetch of the destination renderer are not: its caches are not
  part of the model.
- The classes model the code as written: `MoveManager.CancelMove` follows
  `CancelAsWritten`, `MoveManager.LoadDestinationPanel` follows
  `LoadAsWritten`, and `SaveBreakerForm` follows `SaveSlotAsWritten`. The
  corrected halves of the findings are separate functions.
- `updatePositionDisplay`, `updateBreakerDisplay` and the indicator
  rendering of the panel renderer: presentation only.
- Common.LexLe: `localeCompare` is modelled as code-point order. Locale
  collation is not modelled. The room filter's `.sort()` without a
  comparator (public/circuit-list.js:55) orders by UTF-16 code units. That
  order differs from code-point order only for characters outside the
  Basic Multilingual Plane.
- ClientData.CircuitRow: every row carries its breaker. A circuit whose
  breaker `breakers.find` misses (public/circuit-list.js:19) gets an
  undefined breaker in the source; that case is not modelled.
- Common.ToLower: only ASCII letters are lower-cased. Full Unicode case
  mapping is not modelled.
- Common.Trim: the white-space set is space, tab, CR, LF, VT, FF, no-break
  space and the byte-order mark. The other Unicode space separators and
  line terminators that `trim` removes are not modelled.
- ErrorHandling.ProcessBreakerData: `monitor` and `confirmed` arrive as
  optional booleans, so `Boolean(x)` is true exactly for `true`. Other
  truthy JSON values (1, "yes") are not modelled.
- Common.InsertionSort: `Array.prototype.sort` is modelled as a sort by a
  total preorder. Its stability is not proved.
- PanelRendering.OtherTypes: the other types appear in first-seen order.
  JavaScript lists integer-like object keys first, which is not modelled.
- Routes.LookupByPosition: the 'both' query returns the rows at A, B and
  single, looked up separately and combined in slot order. It is not one
  SQL scan.
- Schema.InsertBreaker: the `critical` column that `routes.js` writes is
  carried as a plain field. `createTables` does not declare it, and
  `processBreakerData` does not pass it on.
- Schema.InsertBreaker: a position larger than the panel's size is not
  refused. Neither the schema nor the routes check it.
- Schema.InsertPanel: `panels.name` is not unique, following the code, so
  duplicate panel names are accepted.

## Findings

| source | as written | input that shows it | evidently intended | confidence | as-written member | corrected member |
|---|---|---|---|---|---|---|
| public/move-manager.js:286-293 | `cancelMove` calls `closeMoveModal`, which clears `sourceBreaker`, before testing `if (this.sourceBreaker)`, so the branch that reopens the editor never runs | open the move dialog on a saved breaker, then press Cancel | the breaker editor reopens with the source breaker as the current breaker | high, not executed | MovePreview.CancelAsWritten | MovePreview.CancelIntended |
| public/move-manager.js:131 | `renderDestinationPanel` sets `destinationRenderer.app.currentPanel`, and `app` is the application shared with the main view, so the chosen destination becomes the current panel; the preview's "From:" (line 202) and the request's `sourcePanelId` (line 259) then name the destination, and the main view keeps it after the dialog closes | show panel P1, open the move dialog on a breaker, choose panel P2, select a position | the source stays the panel shown when the dialog opened, and the main view's panel is untouched | high, not executed | MovePreview.ChosenPanelBecomesSource | MovePreview.ChosenPanelKeepsSource |
| public/panel-renderer.js:737 | a tandem keeps `currentBreaker.slot_position \|\| 'A'`, which is 'single' for a breaker that was single | open a single breaker, choose tandem, save | slot 'A', as `processBreakerData` stores it on the server; as written the browser caches the breaker under slot 'single' | medium, not executed | PanelRendering.SaveSlotAsWritten | PanelRendering.SaveSlot |
