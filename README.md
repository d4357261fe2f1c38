# Haystack vessel list: a Dafny model

Haystack Continued is a Kerbal Space Program add-on. It shows a window listing the vessels in the game and the celestial bodies. This project models the logic behind that list, in four parts.

- **`VesselListController`** (module `VesselListControl`) counts vessels per type. It narrows the master list with four filters:
  - vessel type visibility;
  - the hidden-vessel set;
  - nearby-only, meaning the same reference body as the active vessel;
  - a case-insensitive name search.

  It narrows the body list by the same search. When grouping is on, it buckets the vessels by reference body and sorts each bucket and the flat list. It also keeps the comparer chain in step with the search term and the nearby toggle.
- **`BottomButtons`** (module `BottomButtonsView`) holds the group-by, nearby and hidden toggles and the two-button sort-order rule. It saves and loads its settings and decides when the fly and target buttons are enabled.
- **`DefaultScrollerView`** (module `DefaultScroller`) holds a single selection, either a vessel or a body. One frame of its `Draw` collects clicks and resolves them into a re-click or a selection change.
- **`DockingPortListView`** (module `DockingPorts`) lists a vessel's free docking ports, with their display names, sorted by name.

Supporting modules:
- `Wrappers` provides `Option`.
- `Text` models the .NET string operations: `IndexOf`/`StartsWith` with `OrdinalIgnoreCase`, `Trim` and `IsNullOrEmpty`.
- `Sorting` models `List.Sort` against an abstract total preorder, plus `List.Reverse`.
- `Game` holds the game records and the global game state.
- `VesselFilters` holds the reference definitions the controller is proved against: the type-count table, the filter stages, the admitted-vessel predicate with its filtered list, the body search and the per-body buckets.

Objects the source updates in place are classes with `modifies` frames. Each loop of the source is a `while` loop with its invariants. Each method is proved against a specification function, and the properties the source promises are proved as lemmas about those functions.

Game globals are passed in as a `GameState` value:
- `FlightGlobals.Vessels` and `FlightGlobals.ActiveVessel`;
- `HSUtils.IsInFlight`;
- the celestial bodies and vessel types of `Resources`;
- the hidden-vessel set.

What the GUI returns is passed in as well:
- the value each toggle returns;
- the clicks on list entries;
- whether the mouse is in the scroll area;
- the scroll position.

A Unity object that has been destroyed compares equal to `null`, but its fields can still be read. A vessel therefore carries a `destroyed` flag.

Vessels are objects, and the source compares them by reference. A vessel stays the same object while its name, orbit or parts change. The model therefore compares vessels by identity, through `Game.SameVessel`, which looks only at the vessel's id. Whole-record equality is never used to decide whether two vessels are the same.

`FetchVesselList` keeps a reference to the game's own vessel list, not a copy (`VesselListController.cs:124`). Each later `performFilters` therefore sees the vessels that have entered or left the game since. The controller records whether it holds the game's list (`listIsLive`). While it does, `PerformFilters` first reads the game's current list (`ReadVesselList`).

## Behaviour of the code worth noting

- There is no dirty flag. The event handlers call `RefreshFilteredList` directly. `onSortOrderChanged` and `onHiddenVesselChanged` always refresh (`VesselListController.cs:41-51`). `onNearbyChanged` refreshes only in flight, and returns first otherwise (`VesselListController.cs:53-72`). The `SearchTerm` setter refreshes only when the term changed (`VesselListController.cs:112-115`).
- When grouping is off, `performFilters` leaves the previous groups untouched (`VesselListController.cs:217-240`).
- The groups are cleared and refilled in place, not built fresh and swapped (`VesselListController.cs:219-233`).
- Sorting uses `List.Sort`, which is not stable. The model claims a sorted permutation and nothing about ties.
- The chain's add and remove live in `Comparers.*`, which is not part of this model, so nothing about where in the chain a comparer sits can be read off the code. The model tracks only which comparer kinds are present.
- Destroyed (null) vessels are dropped only by the name search (`VesselListController.cs:277`), and only when the term is non-empty. The other filters keep them.
- The type counts are rebuilt only by `FetchVesselList`, so between fetches they can disagree with the live list that the filters read.

## Model

| member | source | states |
|---|---|---|
| Text.IndexFrom | HaystackContinued/VesselListController.cs:277 | The result is -1, or the first position at or after `from` where the term occurs up to case; -1 means there is no such position |
| Text.IndexOfIgnoreCaseSpec | HaystackContinued/VesselListController.cs:212 | `IndexOf(term, OrdinalIgnoreCase)` is -1 exactly when the term does not occur in the string up to case. Otherwise it is the first position where the term occurs |
| Text.StartsWithIsMatchAtZero | HaystackContinued/GUI/DockingPortListView.cs:114 | `StartsWith(prefix, OrdinalIgnoreCase)` holds exactly when the prefix occurs, up to case, at position 0 |
| Text.Trim | HaystackContinued/GUI/DockingPortListView.cs:144 | The trimmed title neither starts nor ends with white space, and is a contiguous slice of the title with only white space removed at either end |
| Text.TrimIdempotent | HaystackContinued/GUI/DockingPortListView.cs:144 | Trimming a trimmed title changes nothing |
| Sorting.SortBy | HaystackContinued/VesselListController.cs:283 | `List.Sort(comparer)` yields a permutation of its input, sorted by the comparer |
| Sorting.Reversed | HaystackContinued/VesselListController.cs:286 | `List.Reverse` keeps the length and puts element `k` at position `n-1-k` |
| Sorting.ReversedPermutes | HaystackContinued/VesselListController.cs:284-287 | Reversing is a permutation |
| Sorting.ReversedSortedIsDescending | HaystackContinued/VesselListController.cs:281-288 | Reversing an ascending list gives a descending one |
| VesselFilters.CountOfTypeOccurs | HaystackContinued/VesselListController.cs:135-144 | A type's count is positive exactly when some vessel has that type |
| VesselFilters.TypeCounts | HaystackContinued/VesselListController.cs:135-144 | Has no ensures of its own; the type table the counting loop builds, specified by `TypeCountsSpec` (one entry per occurring type, holding its count) and reached by `CountTypes` |
| VesselFilters.TypeCountsSpec | HaystackContinued/VesselListController.cs:135-144 | The table has a key exactly for the types that occur in the master list, and each entry is that type's number of vessels (at least 1) |
| VesselFilters.TypeCountsSnoc | HaystackContinued/VesselListController.cs:138-143 | Counting one more vessel increments its type's entry, or adds the entry with 1 |
| VesselFilters.TypeCountsStep | HaystackContinued/VesselListController.cs:138-143 | The counting loop's step on the prefix it has counted: the next vessel's type entry is incremented, or added with 1 |
| VesselFilters.TypeCountsEmpty | HaystackContinued/VesselListController.cs:126-130 | An empty master list (also what a null list becomes) gives an empty table |
| VesselFilters.RemoveAll | HaystackContinued/VesselListController.cs:249 | `List.RemoveAll` never lengthens the list; what it keeps is stated by `RemoveAllSpec` |
| VesselFilters.RemoveAllSpec | HaystackContinued/VesselListController.cs:249 | `RemoveAll` keeps exactly the vessels the predicate does not match, as a subsequence in the original order. Each kept vessel keeps its multiplicity, and each removed one has none |
| VesselFilters.RemoveAllAfterKeepAll | HaystackContinued/VesselListController.cs:193-207 | Running one more `RemoveAll` after a series of them is the same as one pass over all the stages |
| VesselFilters.SettingsFor | HaystackContinued/VesselListController.cs:258-267 | The nearby filter is active exactly when nearby-only is on and the game is in flight, and its body is the active vessel's reference body |
| VesselFilters.ActiveFiltersAdmit | HaystackContinued/VesselListController.cs:188-207 | Passing every stage `performFilters` applies means: the type is not marked invisible; the id is not hidden unless the toggle is on; the body is the local body when nearby-only applies; and for a non-empty term the vessel is live, named and its name contains the term up to case |
| VesselFilters.ActiveFiltersComputeSpec | HaystackContinued/VesselListController.cs:243-279 | The staged `RemoveAll` passes compute the reference filtered list exactly |
| VesselFilters.FilterSpecSubsequence | HaystackContinued/VesselListController.cs:188-207 | The filtered list is a subsequence of the master list, in the same order. A vessel is in it exactly when it is in the master list and passes every active filter, and then as often as in the master list |
| VesselFilters.RemoveUnmatchedBodies | HaystackContinued/VesselListController.cs:211-213 | A body stays exactly when its name contains the term up to case, and the kept bodies keep their order |
| VesselFilters.BodiesForSpec | HaystackContinued/VesselListController.cs:189-214 | The body list is a subsequence of all bodies; a body is in it exactly when the term is null or empty or the body's name contains it. Type, hidden and nearby filters do not touch it |
| VesselFilters.BucketMembers | HaystackContinued/VesselListController.cs:221-233 | A bucket holds exactly the filtered vessels that orbit its body |
| VesselFilters.BucketOfAbsentBody | HaystackContinued/VesselListController.cs:226-230 | A body no filtered vessel orbits has an empty bucket |
| VesselFilters.FirstSeenBodies | HaystackContinued/VesselListController.cs:221-230 | The group keys are exactly the bodies the filtered vessels orbit, each once |
| VesselFilters.FirstSeenBodiesSnoc | HaystackContinued/VesselListController.cs:226-230 | A body seen for the first time is appended to the key order, and a known body leaves the order alone |
| VesselFilters.BucketsSnoc | HaystackContinued/VesselListController.cs:223-232 | One step of the grouping loop appends the vessel to its body's bucket, creating the bucket when the body is new |
| VesselFilters.BucketMultiplicity | HaystackContinued/VesselListController.cs:221-233 | A vessel's whole multiplicity goes to its own body's bucket and none goes elsewhere |
| VesselFilters.BucketsPartition | HaystackContinued/VesselListController.cs:217-233 | The buckets over the keys, taken together, are a permutation of the filtered list |
| VesselListControl.NearbyComparerRefreshed | HaystackContinued/VesselListController.cs:175-176 | After `updateNearbyComparer` the nearby comparer is absent and every other kind is as before |
| VesselListControl.SearchComparerFor | HaystackContinued/VesselListController.cs:102-110 | The search comparer is present exactly when the term is non-empty; other kinds are unchanged |
| VesselListControl.NearbyComparerFor | HaystackContinued/VesselListController.cs:62-69 | The nearby comparer is present exactly when nearby-only is on; other kinds are unchanged |
| VesselListControl.GroupsPartitionFiltered | HaystackContinued/VesselListController.cs:217-233 | Every filtered vessel is in the bucket of the body it orbits and in no other bucket, with its full multiplicity |
| VesselListControl.GroupStep | HaystackContinued/VesselListController.cs:223-232 | The loop body (create the bucket if missing, then append) extends the first-seen keys and the buckets by one vessel |
| VesselListControl.GroupsSorted | HaystackContinued/VesselListController.cs:235-239 | Sorting every bucket of freshly built groups keeps each bucket a permutation of its body's vessels, sorted for display |
| VesselListControl.VesselListController.constructor | HaystackContinued/VesselListController.cs:29-39 | The chain starts with the name comparer alone, the sort order is taken from the buttons, and the search term is empty |
| VesselListControl.VesselListController.UpdateNearbyComparer | HaystackContinued/VesselListController.cs:166-177 | The chain afterwards is the chain with the nearby comparer gone |
| VesselListControl.VesselListController.UpdateActiveVessel | HaystackContinued/VesselListController.cs:149-164 | Outside flight there is no active vessel and the chain is unchanged. In flight the active vessel is the game's. The nearby comparer is refreshed exactly when that is a different vessel by identity, so the same vessel with a new orbit or name keeps the chain |
| VesselListControl.VesselListController.ReadVesselList | HaystackContinued/VesselListController.cs:124 | While the controller holds the game's list, reading `vesselList` sees the game's current list. Otherwise it sees the list taken at the last fetch |
| VesselListControl.VesselListController.RemoveFilteredVessels | HaystackContinued/VesselListController.cs:243-251 | When the type list is known, vessels of invisible types are removed; otherwise the list is untouched |
| VesselListControl.VesselListController.RemoveHiddenVessels | HaystackContinued/VesselListController.cs:253-256 | Vessels whose id is in the hidden set are removed |
| VesselListControl.VesselListController.FilterForNearbyOnly | HaystackContinued/VesselListController.cs:258-267 | In flight, vessels not orbiting the active vessel's body are removed; outside flight nothing changes |
| VesselListControl.VesselListController.PerformSearchOnVesselList | HaystackContinued/VesselListController.cs:269-279 | A null or empty term removes nothing. Otherwise destroyed vessels, unnamed vessels and vessels whose name lacks the term are removed |
| VesselListControl.VesselListController.PerformSort | HaystackContinued/VesselListController.cs:281-288 | The result is a permutation of the input, ascending by the comparer, or descending when the order is descending |
| VesselListControl.VesselListController.FilterVessels | HaystackContinued/VesselListController.cs:188-207 | After the four stages the filtered list equals the reference filtered list of the master list |
| VesselListControl.VesselListController.GroupByBody | HaystackContinued/VesselListController.cs:219-233 | The group keys are the bodies in first-seen order, and each group is its body's vessels in filtered-list order |
| VesselListControl.VesselListController.SortGroups | HaystackContinued/VesselListController.cs:235-239 | Every group keyed in the enumeration order ends up sorted for display and stays a permutation of itself; the keys do not change |
| VesselListControl.VesselListController.PerformFilters | HaystackContinued/VesselListController.cs:186-241 | The master list is read as it is now while it is the game's list. The filtered vessels are the reference filtered list of it, unsorted. The bodies are narrowed by the search. With grouping on, the groups are rebuilt, each sorted and together a permutation of the filtered list; with grouping off they are left as they were |
| VesselListControl.VesselListController.ApplyFilters | HaystackContinued/VesselListController.cs:188-239 | On the list read, the filtered vessels equal the reference filtered list and the bodies are narrowed by the search. With grouping on, the groups are rebuilt; with grouping off they are kept |
| VesselListControl.VesselListController.FilterBodies | HaystackContinued/VesselListController.cs:189-214 | The body list is every celestial body, narrowed only by a non-empty search term |
| VesselListControl.VesselListController.RebuildGroups | HaystackContinued/VesselListController.cs:217-239 | The groups are rebuilt from the filtered vessels: the keys are the bodies in first-seen order, each group is sorted for display and a permutation of its body's vessels, and together they are a permutation of the filtered list |
| VesselListControl.VesselListController.RefreshFilteredList | HaystackContinued/VesselListController.cs:179-184 | The active vessel is updated. The filters are applied to the game's current list when the controller holds it, so vessels that entered or left the game since the fetch are seen. The flat list is a permutation of the reference filtered list, in display order |
| VesselListControl.VesselListController.FilterAndSort | HaystackContinued/VesselListController.cs:182-183 | After the filters, the flat list is the reference filtered list in display order: a permutation, ascending or descending as the list order says |
| VesselListControl.VesselListController.TakeVesselList | HaystackContinued/VesselListController.cs:124-144 | The master list is the game's list, held by reference, or a fresh empty list when that is null. The active vessel is updated, and the counts are the type table of the master list |
| VesselListControl.VesselListController.CountVesselTypes | HaystackContinued/VesselListController.cs:135-144 | The counting loop leaves exactly the type table of the master list, whatever the filters |
| VesselListControl.CountTypes | HaystackContinued/VesselListController.cs:135-144 | The loop over a local dictionary ends with exactly the type table of the vessels it counted |
| VesselListControl.VesselListController.FetchVesselList | HaystackContinued/VesselListController.cs:122-147 | The master list is the game's list (empty when null), held by reference when the game has one, with its type table. The filters are applied, and the filtered list is left unsorted, in master-list order |
| VesselListControl.VesselListController.SetSearchTerm | HaystackContinued/VesselListController.cs:94-117 | The term is stored, and the search comparer is present exactly for a non-empty term. When the term changed, the active vessel is tracked and the lists are refreshed from the current list. Otherwise nothing else changes |
| VesselListControl.VesselListController.StoreSearchTerm | HaystackContinued/VesselListController.cs:97-110 | The term is stored, and the search comparer is present exactly for a non-empty term, with every other comparer kind unchanged |
| VesselListControl.VesselListController.OnNearbyChanged | HaystackContinued/VesselListController.cs:53-72 | Outside flight nothing changes. In flight the active vessel is tracked by identity, the nearby comparer follows the toggle, and the lists are refreshed from the current list |
| VesselListControl.VesselListController.OnSortOrderChanged | HaystackContinued/VesselListController.cs:41-46 | The list order is taken from the buttons. The active vessel and the chain are tracked as `updateActiveVessel` leaves them, and the lists are refreshed from the current list in the new order |
| VesselListControl.VesselListController.OnHiddenVesselChanged | HaystackContinued/VesselListController.cs:48-51 | The active vessel and the chain are tracked as `updateActiveVessel` leaves them, and the lists are refreshed from the current list with the hidden toggle's new value |
| BottomButtonsView.NextSortOrder | HaystackContinued/HaystackContinued.BottomButtons.cs:97-107 | Has no ensures of its own; the order after a frame of the two sort toggles, specified by `SortOrderRule` and `ClickingActiveOrderKeepsIt` |
| BottomButtonsView.SortOrderRule | HaystackContinued/HaystackContinued.BottomButtons.cs:97-107 | From ascending, the order turns descending exactly when the descending toggle flipped and the ascending one did not; from descending, the mirror rule. Equivalently, the order flips exactly when both toggles come back on |
| BottomButtonsView.ClickingActiveOrderKeepsIt | HaystackContinued/HaystackContinued.BottomButtons.cs:97-107 | Clicking nothing, or clicking the active order's button off, keeps the order |
| BottomButtonsView.BottomButtons.constructor | HaystackContinued/HaystackContinued.BottomButtons.cs:10-14 | The sort order starts ascending, with all toggles off |
| BottomButtonsView.BottomButtons.SortOrderButtons | HaystackContinued/HaystackContinued.BottomButtons.cs:82-113 | The new order follows the two-button rule, and `OnSortOrderChanged` fires exactly when the order changed |
| BottomButtonsView.BottomButtons.GroupByButton | HaystackContinued/HaystackContinued.BottomButtons.cs:42-54 | Takes the toggle's value; `OnGroupByChanged` fires exactly when the value changed |
| BottomButtonsView.BottomButtons.NearbyButton | HaystackContinued/HaystackContinued.BottomButtons.cs:56-67 | Takes the toggle's value; `OnNearbyChanged` fires exactly when the value changed |
| BottomButtonsView.BottomButtons.HiddenVesselsButton | HaystackContinued/HaystackContinued.BottomButtons.cs:69-80 | Takes the toggle's value; `OnHiddenVesselsChanged` fires exactly when the value changed |
| BottomButtonsView.Save | HaystackContinued/HaystackContinued.BottomButtons.cs:35-40 | Saving writes the sort order under "ascending", nearby-only under "nearby" and group-by under "groupby", and leaves every other entry as it was |
| BottomButtonsView.Load | HaystackContinued/HaystackContinued.BottomButtons.cs:28-33 | Has no ensures of its own; the three indexed reads in order, stopping at the first missing key, specified by `LoadAfterSave` and `HiddenToggleNotPersisted` |
| BottomButtonsView.LoadAfterSave | HaystackContinued/HaystackContinued.BottomButtons.cs:28-40 | Loading what was saved completes, restores the sort order, nearby-only and group-by, and leaves the hidden toggle alone |
| BottomButtonsView.HiddenToggleNotPersisted | HaystackContinued/HaystackContinued.BottomButtons.cs:28-40 | The hidden toggle changes neither what is saved nor what loading sets |
| BottomButtonsView.BottomButtons.LoadSettings | HaystackContinued/HaystackContinued.BottomButtons.cs:28-33 | The three keys are read in order; at the first missing key the load stops, keeps what was read and reports it did not complete; no event fires |
| BottomButtonsView.BottomButtons.SaveSettings | HaystackContinued/HaystackContinued.BottomButtons.cs:35-40 | The settings returned are the saved form of the current toggles |
| BottomButtonsView.GetSelectedVessel | HaystackContinued/HaystackContinued.BottomButtons.cs:217-222 | Has no ensures of its own; the grouped view's selection when grouping, else the default view's; `FlyButtonRule` and `FlyButton` state the rules built on it |
| BottomButtonsView.IsFlyButtonDisabled | HaystackContinued/HaystackContinued.BottomButtons.cs:208-215 | Has no ensures of its own; specified by `FlyButtonRule` (disabled exactly when the selection is null or the active vessel by identity) |
| BottomButtonsView.FlyButtonRule | HaystackContinued/HaystackContinued.BottomButtons.cs:208-222 | The fly button is disabled exactly when the mode's selected vessel is null or has the active vessel's identity. The selected vessel is the grouped view's when grouping, else the default view's. A selection made before the active vessel changed name or orbit still counts as the active vessel |
| BottomButtonsView.IsTargetButtonDisabled | HaystackContinued/HaystackContinued.BottomButtons.cs:184-206 | Has no ensures of its own; specified by `TargetButtonRule` (its four cases) and `TargetSelectedBody` |
| BottomButtonsView.TargetButtonRule | HaystackContinued/HaystackContinued.BottomButtons.cs:184-206 | The target button is disabled outside flight. In grouped mode it follows the fly rule. In default mode a selected body other than the local body enables it; otherwise it follows the fly rule |
| BottomButtonsView.TargetSelectedBody | HaystackContinued/HaystackContinued.BottomButtons.cs:195-205 | In flight, when the default view has a body selected (and so no vessel), the target button is disabled exactly when that body is the one the active vessel orbits |
| BottomButtonsView.TargetSelection | HaystackContinued/HaystackContinued.BottomButtons.cs:126-136 | Has no ensures of its own; the grouped vessel, else the default vessel, else the default body; `EnabledTargetHasSelection` and `TargetButton` state what it yields |
| BottomButtonsView.EnabledTargetHasSelection | HaystackContinued/HaystackContinued.BottomButtons.cs:115-145 | Whenever the target button is enabled there is something to target |
| BottomButtonsView.BottomButtons.FlyButton | HaystackContinued/HaystackContinued.BottomButtons.cs:147-162 | A disabled button takes no click. An accepted click requests a switch to the mode's selected vessel, which is never the active vessel by identity |
| BottomButtonsView.BottomButtons.TargetButton | HaystackContinued/HaystackContinued.BottomButtons.cs:115-145 | A disabled button takes no click. An accepted click targets the grouped selection, or the default view's vessel, or else its body |
| DefaultScroller.DefaultScrollerView.constructor | HaystackContinued/HaystackContinued.DefaultScrollerView.cs:16-20 | A new view has no selection, scrolls from the origin, hides the bodies and has fired no events |
| DefaultScroller.DefaultScrollerView.SetSelectedVessel | HaystackContinued/HaystackContinued.DefaultScrollerView.cs:22-30 | Selecting a vessel clears the selected body, so the two are never both set |
| DefaultScroller.DefaultScrollerView.SetSelectedBody | HaystackContinued/HaystackContinued.DefaultScrollerView.cs:32-40 | Selecting a body clears the selected vessel, so the two are never both set |
| DefaultScroller.DefaultScrollerView.Reset | HaystackContinued/HaystackContinued.DefaultScrollerView.cs:42-48 | Both selections are cleared, the scroll position returns to the origin, and the info view is reset once |
| DefaultScroller.LastClickedVessel | HaystackContinued/HaystackContinued.DefaultScrollerView.cs:70-87 | The remembered vessel is a clicked live entry after which every clicked entry is destroyed, so it is the last clicked live one. Destroyed (null) entries are skipped, and none is remembered exactly when every clicked entry is destroyed |
| DefaultScroller.LastLiveClick | HaystackContinued/HaystackContinued.DefaultScrollerView.cs:70-87 | The index found is -1 or a clicked live entry, and every clicked entry after it is destroyed |
| DefaultScroller.LastClickedNewBody | HaystackContinued/HaystackContinued.DefaultScrollerView.cs:90-117 | The remembered body is a clicked body other than the selected one, after which every clicked entry is the selected body, so it is the last such click. None is remembered exactly when every clicked body is the selected one |
| DefaultScroller.LastNewBodyClick | HaystackContinued/HaystackContinued.DefaultScrollerView.cs:90-117 | The index found is -1 or a clicked entry that is not the selected body, and every clicked entry after it is the selected body |
| DefaultScroller.SelectedBodyReclicks | HaystackContinued/HaystackContinued.DefaultScrollerView.cs:107-111 | Clicks on the selected body fire `OnSelectedItemClicked`; there are none when no body is selected, and the count is zero exactly when no clicked entry is the selected body |
| DefaultScroller.SelectedBodyReclicksCounts | HaystackContinued/HaystackContinued.DefaultScrollerView.cs:107-111 | The re-click count is exactly the number of clicked entries that show the selected body, one `OnSelectedItemClicked` each |
| DefaultScroller.ResolveClick | HaystackContinued/HaystackContinued.DefaultScrollerView.cs:125-145 | Without a click inside the scroll area nothing happens. Clicking the selected vessel again (same identity) is a re-click, and nothing else is. A new selection always differs from the current one |
| DefaultScroller.ReclickSurvivesChanges | HaystackContinued/HaystackContinued.DefaultScrollerView.cs:125-129 | Clicking the selected vessel after its name, orbit or parts changed is still a re-click, because it is the same object |
| DefaultScroller.BodyTakesPrecedence | HaystackContinued/HaystackContinued.DefaultScrollerView.cs:136-145 | A newly clicked body wins over a newly clicked vessel |
| DefaultScroller.AcceptedClickAlwaysDecides | HaystackContinued/HaystackContinued.DefaultScrollerView.cs:60-145 | Given what the loops collect, an accepted click is always a re-click or a selection change |
| DefaultScroller.DefaultScrollerView.CollectVesselClick | HaystackContinued/HaystackContinued.DefaultScrollerView.cs:70-87 | The vessel loop yields the last clicked live vessel |
| DefaultScroller.DefaultScrollerView.CollectBodyClick | HaystackContinued/HaystackContinued.DefaultScrollerView.cs:90-117 | The body loop yields the last clicked new body, and fires `OnSelectedItemClicked` once per click on the selected body |
| DefaultScroller.ScanBodyClicks | HaystackContinued/HaystackContinued.DefaultScrollerView.cs:90-117 | The body loop yields the last clicked body other than the selected one, and the number of clicks on the selected one |
| DefaultScroller.DefaultScrollerView.ResolveTail | HaystackContinued/HaystackContinued.DefaultScrollerView.cs:125-148 | The selection and the events follow the click resolution: `OnSelectionChanged` fires exactly for a new selection, and the info view resets unless the click was ignored or a re-click |
| DefaultScroller.DefaultScrollerView.Draw | HaystackContinued/HaystackContinued.DefaultScrollerView.cs:50-150 | An empty list with the bodies hidden changes nothing. Otherwise the scroll position is taken, clicks are collected and resolved, and the two selections stay exclusive |
| DockingPorts.UsedNodeCount | HaystackContinued/GUI/DockingPortListView.cs:120 | The number of occupied attach nodes is at most the number of nodes; `AllNodesUsedIff` states when it reaches it |
| DockingPorts.AllNodesUsedIff | HaystackContinued/GUI/DockingPortListView.cs:120-121 | The used-node count equals the node count exactly when every attach node is occupied, which holds for a part with none |
| DockingPorts.NoAttachNodesNotListed | HaystackContinued/GUI/DockingPortListView.cs:120-124 | A docking port with no attach nodes is never listed |
| DockingPorts.ListedHasFreeNode | HaystackContinued/GUI/DockingPortListView.cs:119-124 | Every listed port has at least one free attach node |
| DockingPorts.FirstNamedModule | HaystackContinued/GUI/DockingPortListView.cs:147-156 | The module found is the first named docking module of the part; none is found exactly when the part has none |
| DockingPorts.PortName | HaystackContinued/GUI/DockingPortListView.cs:138-170 | Has no ensures of its own; what `getPortName` returns, specified by `PortNameCases` and reached by `GetPortName` |
| DockingPorts.PortNameCases | HaystackContinued/GUI/DockingPortListView.cs:142-169 | Without named-port support the name is the trimmed title. With support but no named module it is the untrimmed title. With support, the name is the port name of the first named module of the part, wherever it sits among the modules |
| DockingPorts.PortEntriesSpec | HaystackContinued/GUI/DockingPortListView.cs:105-133 | An entry is listed exactly for a targetable that is a docking node, is not docked (case-insensitive "Docked" prefix) and has a free attach node; it carries that port and its name |
| DockingPorts.ByNameTotalPreorder | HaystackContinued/GUI/DockingPortListView.cs:135 | Comparing entries by name is a consistent total order whenever the string order is |
| DockingPorts.DockingPortListView.constructor | HaystackContinued/GUI/DockingPortListView.cs:61-64 | A new view shows no vessel and no ports, runs no updates, and carries the named-port support found when the class was loaded |
| DockingPorts.DockingPortListView.SetCurrentVessel | HaystackContinued/GUI/DockingPortListView.cs:66-87 | A null vessel empties the port list and stops updates; any other vessel sets `runUpdate` and starts the update coroutine |
| DockingPorts.DockingPortListView.GetPortName | HaystackContinued/GUI/DockingPortListView.cs:138-170 | The index loop with `break` returns the name `getPortName` is specified to give |
| DockingPorts.DockingPortListView.PopulatePortList | HaystackContinued/GUI/DockingPortListView.cs:101-136 | The list is rebuilt from scratch as a permutation of the listed entries, sorted ascending by name |

## Left out

- `Comparers.*` is not part of this model. The order the comparer chain induces is a parameter `le` of every sorting operation, required to be a total preorder. The chain is kept only as the set of kinds it holds, so nothing is claimed about position, multiplicity or replace-in-place.
- VesselListControl.VesselListController.UpdateNearbyComparer: at `VesselListController.cs:176` the chain returned by `Add` is discarded, while lines 64 and 108 assign it. If `Add` returns a new chain, the refreshed nearby comparer is lost. The model states the net effect, "nearby comparer removed", without guessing at `Add`.
- VesselListControl.VesselListController.PerformSort: `List.Sort` is an unstable introsort. An insertion sort stands in for it, and only "sorted and a permutation" is stated.
- Text.IndexFrom: `OrdinalIgnoreCase` folds all of Unicode. The model folds only the ASCII letters.
- DockingPorts.DockingPortListView.PopulatePortList: `string.CompareTo` is culture-sensitive. The string order is a parameter, required to be a total preorder.
- Rendering and layout are not modelled: `GUILayout`, `GUI` and `Event.current`, the info views, `VesselInfoView`, `GroupedScrollerView` and `BottomButtons.Draw`. What they return is passed in as input.
- `changeCameraTarget` (`DefaultScrollerView.cs:152-176`) moves the map camera and is not modelled.
- The docking-port coroutine `updatePortListCoroutine` is not modelled; only its start is counted. The reflection in the static constructor and the `GetValue` call are replaced by a `namedDockingPortSupport` input and a `portName` carried by the module.
- Events are counters, or for the fly and target buttons the request they carry. `SetVesselTarget` and the vessel switch are only recorded.
- Settings persistence (`HaystackResourceLoader`) is a `map<string, bool>`. BottomButtonsView.BottomButtons.LoadSettings models the `KeyNotFoundException` of a missing key by stopping and reporting `completed == false`; the exception itself does not propagate.
- A selection that refers to a vessel destroyed since it was made is not modelled: selections are either present or null.
- Game.GameState.Wellformed: every controller method, `IsTargetButtonDisabled`, `TargetButtonRule` and `TargetButton` require that the game is never in flight with a null `FlightGlobals.ActiveVessel`. The source does not rule that state out. In it, `updateActiveVessel` stores null and refreshes the nearby comparer when a vessel was held (`VesselListController.cs:157-163`). `filterForNearbyOnly` then throws a `NullReferenceException` (`VesselListController.cs:264`), and so does `isTargetButtonDisabled` when a body is selected (`HaystackContinued.BottomButtons.cs:199`). The model does not capture this state or these exceptions.
- DockingPorts.PortName: a named module's `portName` is a string in the model, but the reflected `GetValue` (`GUI/DockingPortListView.cs:165`) can return null. The sort's `a.Name.CompareTo(b.Name)` (`GUI/DockingPortListView.cs:135`) then throws a `NullReferenceException` whenever the null name is on the left of a comparison. The model does not capture the null name or that exception.
- Game.SameVessel: C# compares `Vessel` references. The model compares the `id` each vessel carries, and a selection holds the vessel as it was when it was selected. Only the id is compared, so this stands for the same object with changed fields.
- VesselListControl.VesselListController.ReadVesselList: the game's list is taken to stay one list object from fetch to fetch. Its contents may change, and the model follows them. Replacing the `FlightGlobals.Vessels` object itself between fetches is not modelled.
- `HaystackContinued.cs` is not part of this model. This includes the game-event handlers that call `FetchVesselList` and the five-second `InvokeRepeating` timer that calls `RefreshFilteredList`.
- The `vesselList != null` test in `performFilters` (`VesselListController.cs:191`) can never fail, because `FetchVesselList` replaces a null list. The model has no null list there, and the `displayVessels == null` test in `DefaultScrollerView.Draw` is left out for the same reason.
- Counts are unbounded integers. The `int` of `Dictionary<string, int>` cannot overflow with any real number of vessels.
