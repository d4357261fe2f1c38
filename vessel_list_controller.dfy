/**
 * `VesselListController`: holds the master vessel list the game reports, the
 * per-type counts, and the filtered vessel and body lists the views display,
 * with the optional grouping of the filtered vessels by the body they orbit.
 *
 * The game state is a parameter of every operation that reads it. The order
 * the comparer chain induces is a parameter `le` of the operations that sort.
 * The chain itself is kept as the set of comparer kinds it contains.
 */
module VesselListControl {
  import opened Wrappers
  import opened Text
  import opened Sorting
  import opened Game
  import opened VesselFilters
  import opened BottomButtonsView

  /** The comparers of the chain: by name, nearest to the active vessel, and search relevance. */
  datatype ComparerKind = ByName | Nearby | SearchRelevance

  /**
   * The chain after `updateNearbyComparer`. The nearby comparer is removed and
   * the chain with a fresh one is built but its result discarded, so the net
   * effect is that the nearby comparer is gone.
   */
  function NearbyComparerRefreshed(kinds: set<ComparerKind>): (r: set<ComparerKind>)
    ensures Nearby !in r
    ensures forall k :: k != Nearby ==> (k in r <==> k in kinds)
  {
    kinds - {Nearby}
  }

  /** The chain after the `SearchTerm` setter: search relevance present exactly for a non-empty term. */
  function SearchComparerFor(kinds: set<ComparerKind>, term: Option<string>): (r: set<ComparerKind>)
    ensures SearchRelevance in r <==> !IsNullOrEmpty(term)
    ensures forall k :: k != SearchRelevance ==> (k in r <==> k in kinds)
  {
    if IsNullOrEmpty(term) then kinds - {SearchRelevance} else kinds + {SearchRelevance}
  }

  /** The chain after `onNearbyChanged` in flight: the nearby comparer present exactly when nearby-only is on. */
  function NearbyComparerFor(kinds: set<ComparerKind>, nearbyOnly: bool): (r: set<ComparerKind>)
    ensures Nearby in r <==> nearbyOnly
    ensures forall k :: k != Nearby ==> (k in r <==> k in kinds)
  {
    if nearbyOnly then kinds + {Nearby} else kinds - {Nearby}
  }

  /**
   * What `performFilters` rebuilds when grouping is on, from the filtered list
   * before any sort: the bodies in first-seen order, one bucket per body holding
   * a permutation of that body's vessels, each bucket in display order, and the
   * buckets together a permutation of the filtered list.
   */
  ghost predicate GroupsRebuilt(filtered: seq<Vessel>, keys: seq<Body>, groups: map<Body, seq<Vessel>>,
                                le: (Vessel, Vessel) -> bool, ascending: bool)
  {
    && keys == FirstSeenBodies(filtered)
    && groups.Keys == BodiesOf(filtered)
    && (forall k :: k in groups ==> multiset(groups[k]) == multiset(Bucket(filtered, k)))
    && (forall k :: k in groups ==> DisplaySorted(groups[k], le, ascending))
    && UnionOf(keys, groups) == multiset(filtered)
  }

  /** Every filtered vessel sits in exactly one bucket: the one of the body it orbits. */
  lemma GroupsPartitionFiltered(filtered: seq<Vessel>, keys: seq<Body>, groups: map<Body, seq<Vessel>>,
                                le: (Vessel, Vessel) -> bool, ascending: bool, v: Vessel, b: Body)
    requires GroupsRebuilt(filtered, keys, groups, le, ascending)
    requires v in filtered
    ensures v.referenceBody in groups && v in groups[v.referenceBody]
    ensures b in groups && v in groups[b] ==> b == v.referenceBody
    ensures b in groups ==> multiset(groups[b])[v] == if b == v.referenceBody then multiset(filtered)[v] else 0
  {
    BucketMembers(filtered, v.referenceBody);
    assert v.referenceBody in BodiesOf(filtered);
    assert v in multiset(Bucket(filtered, v.referenceBody));
    if b in groups {
      BucketMultiplicity(filtered, b, v);
    }
  }

  class VesselListController {
    /** The window's bottom buttons, whose toggles the filters read. */
    const buttons: BottomButtons

    var vesselTypeCounts: map<string, int>
    var vesselList: seq<Vessel>
    /**
     * `vesselList` is the game's own `FlightGlobals.Vessels` list, held by
     * reference, rather than the empty list made when the game had none.
     */
    var listIsLive: bool
    var filteredVesselList: seq<Vessel>
    var filteredBodyList: seq<Body>
    var comparerKinds: set<ComparerKind>
    var searchTerm: Option<string>
    /** The keys of `groupedBodyVessel` in the dictionary's enumeration order. */
    var groupKeys: seq<Body>
    var groupedBodyVessel: map<Body, seq<Vessel>>
    var listIsAscending: bool
    var activeVessel: Option<Vessel>

    constructor (bottomButtons: BottomButtons)
      ensures buttons == bottomButtons
      ensures listIsAscending == bottomButtons.IsAscendingSortOrder
      ensures comparerKinds == {ByName} && searchTerm == Some("")
      ensures vesselTypeCounts == map[] && vesselList == [] && filteredVesselList == [] && filteredBodyList == []
      ensures groupKeys == [] && groupedBodyVessel == map[] && activeVessel == None && !listIsLive
    {
      buttons := bottomButtons;
      listIsAscending := bottomButtons.IsAscendingSortOrder;
      comparerKinds := {ByName};
      searchTerm := Some("");
      vesselTypeCounts, vesselList, filteredVesselList, filteredBodyList := map[], [], [], [];
      groupKeys, groupedBodyVessel, activeVessel := [], map[], None;
      listIsLive := false;
    }

    /** The filter settings for the current toggles and search term. */
    ghost function Settings(game: GameState): FilterSettings
      requires game.Wellformed()
      reads this`searchTerm, buttons
    {
      SettingsFor(game, buttons.IsHiddenVesselsToggled, buttons.IsNearbyOnly, searchTerm)
    }

    /**
     * The state `performFilters` leaves: the body list narrowed by the search,
     * and, when grouping, the groups rebuilt from the filtered vessels.
     */
    ghost predicate FiltersApplied(game: GameState, le: (Vessel, Vessel) -> bool)
      requires game.Wellformed()
      reads this`filteredBodyList, this`searchTerm, this`vesselList, this`groupKeys, this`groupedBodyVessel,
            this`listIsAscending, buttons
    {
      && filteredBodyList == BodiesFor(game.celestialBodies, searchTerm)
      && (buttons.GroupByOrbitingBody ==>
            GroupsRebuilt(FilterSpec(vesselList, Settings(game)), groupKeys, groupedBodyVessel, le, listIsAscending))
    }

    /**
     * What `updateActiveVessel` leaves, from the active vessel and chain before
     * it: outside flight no active vessel; in flight the game's, with the nearby
     * comparer refreshed when it changed.
     */
    ghost predicate TracksActiveVessel(game: GameState, previousActive: Option<Vessel>, previousKinds: set<ComparerKind>)
      reads this`activeVessel, this`comparerKinds
    {
      && (!game.inFlight ==> activeVessel == None && comparerKinds == previousKinds)
      && (game.inFlight ==>
            activeVessel == game.activeVessel &&
            comparerKinds == if !SameVessel(game.activeVessel, previousActive)
              then NearbyComparerRefreshed(previousKinds) else previousKinds)
    }

    /**
     * What `performFilters` reads as `vesselList`: while the controller holds
     * the game's list, its contents now, with the vessels that entered or left
     * the game since the last fetch; otherwise the list taken at that fetch.
     */
    ghost function CurrentVesselList(game: GameState): seq<Vessel>
      reads this`listIsLive, this`vesselList
    {
      if listIsLive && game.vessels.Some? then game.vessels.value else vesselList
    }

    /** Grouping off leaves the groups as they were. */
    ghost predicate GroupsKeptUnlessGrouping(previousKeys: seq<Body>, previousGroups: map<Body, seq<Vessel>>)
      reads this, buttons
    {
      !buttons.GroupByOrbitingBody ==> groupKeys == previousKeys && groupedBodyVessel == previousGroups
    }

    /** What `RefreshFilteredList` leaves: the filtered vessels in display order, and the filters applied. */
    ghost predicate Refreshed(game: GameState, le: (Vessel, Vessel) -> bool)
      requires game.Wellformed()
      reads this`filteredVesselList, this`filteredBodyList, this`searchTerm, this`vesselList, this`groupKeys,
            this`groupedBodyVessel, this`listIsAscending, buttons
    {
      && multiset(filteredVesselList) == multiset(FilterSpec(vesselList, Settings(game)))
      && DisplaySorted(filteredVesselList, le, listIsAscending)
      && FiltersApplied(game, le)
    }

    /** `updateNearbyComparer`. */
    method UpdateNearbyComparer()
      modifies this`comparerKinds
      ensures comparerKinds == NearbyComparerRefreshed(old(comparerKinds))
    {
      if Nearby !in comparerKinds {
        return;
      }
      comparerKinds := comparerKinds - {Nearby};
    }

    /**
     * `updateActiveVessel`: tracks the game's active vessel, refreshing the
     * nearby comparer when it is another vessel. The source keeps its reference
     * when the vessel is the same object; the model then stores that vessel as
     * it is now, which is what the kept reference shows.
     */
    method UpdateActiveVessel(game: GameState)
      requires game.Wellformed()
      modifies this`activeVessel, this`comparerKinds
      ensures TracksActiveVessel(game, old(activeVessel), old(comparerKinds))
    {
      if !game.inFlight {
        activeVessel := None;
        return;
      }
      var current := game.activeVessel;
      if !SameVessel(current, activeVessel) {
        UpdateNearbyComparer();
      }
      activeVessel := current;
    }

    /** Reading `vesselList` sees the game's list as it is now while the controller holds it. */
    method ReadVesselList(game: GameState)
      modifies this`vesselList
      ensures vesselList == old(CurrentVesselList(game))
    {
      if listIsLive && game.vessels.Some? {
        vesselList := game.vessels.value;
      }
    }

    /** `removeFilteredVesslesFromList`: drops vessels of a type marked invisible, when the type list is known. */
    method RemoveFilteredVessels(game: GameState)
      modifies this`filteredVesselList
      ensures filteredVesselList == if game.vesselTypes.Some?
        then RemoveAll(old(filteredVesselList), TypeVisibility(InvisibleTypeNames(game.vesselTypes.value)))
        else old(filteredVesselList)
    {
      if game.vesselTypes.Some? {
        var invisibleTypes := InvisibleTypeNames(game.vesselTypes.value);
        filteredVesselList := RemoveAll(filteredVesselList, TypeVisibility(invisibleTypes));
      }
    }

    /** `removeHiddenVesselsFromList`. */
    method RemoveHiddenVessels(game: GameState)
      modifies this`filteredVesselList
      ensures filteredVesselList == RemoveAll(old(filteredVesselList), HiddenSet(game.hiddenVessels))
    {
      filteredVesselList := RemoveAll(filteredVesselList, HiddenSet(game.hiddenVessels));
    }

    /** `filterForNearbyOnly`: in flight, keeps the vessels orbiting the active vessel's body. */
    method FilterForNearbyOnly(game: GameState)
      requires game.Wellformed()
      modifies this`filteredVesselList
      ensures filteredVesselList == if game.inFlight
        then RemoveAll(old(filteredVesselList), NearbyOnly(game.LocalBody()))
        else old(filteredVesselList)
    {
      if !game.inFlight {
        return;
      }
      var localBody := game.LocalBody();
      filteredVesselList := RemoveAll(filteredVesselList, NearbyOnly(localBody));
    }

    /** `performSearchOnVesselList`: a non-empty term keeps the live, named vessels whose name contains it. */
    method PerformSearchOnVesselList()
      modifies this`filteredVesselList
      ensures filteredVesselList == if IsNullOrEmpty(searchTerm)
        then old(filteredVesselList)
        else RemoveAll(old(filteredVesselList), NameSearch(searchTerm.value))
    {
      if IsNullOrEmpty(searchTerm) {
        return;
      }
      filteredVesselList := RemoveAll(filteredVesselList, NameSearch(searchTerm.value));
    }

    /** `performSort`: sorts by the chain's order, then reverses when descending. */
    method PerformSort(list: seq<Vessel>, le: (Vessel, Vessel) -> bool) returns (sorted: seq<Vessel>)
      requires TotalPreorder(le)
      ensures multiset(sorted) == multiset(list)
      ensures listIsAscending ==> SortedBy(sorted, le)
      ensures !listIsAscending ==> SortedDescendingBy(sorted, le)
    {
      sorted := SortBy(list, le);
      if !listIsAscending {
        ReversedPermutes(sorted);
        ReversedSortedIsDescending(sorted, le);
        sorted := Reversed(sorted);
      }
    }

    /** The four vessel filters of `performFilters`, in order. */
    method FilterVessels(game: GameState)
      requires game.Wellformed()
      modifies this`filteredVesselList
      ensures filteredVesselList == FilterSpec(vesselList, Settings(game))
    {
      ghost var c := Settings(game);
      filteredVesselList := vesselList;
      KeepAllNoStages(vesselList);
      ghost var applied: seq<VesselFilter> := [];

      RemoveFilteredVessels(game);
      if game.vesselTypes.Some? {
        RemoveAllAfterKeepAll(vesselList, applied, TypeVisibility(InvisibleTypeNames(game.vesselTypes.value)));
        applied := applied + [TypeVisibility(InvisibleTypeNames(game.vesselTypes.value))];
      }
      assert applied == (if c.vesselTypes.Some? then [TypeVisibility(InvisibleTypeNames(c.vesselTypes.value))] else []);
      ghost var stage1 := applied;

      if !buttons.IsHiddenVesselsToggled {
        RemoveHiddenVessels(game);
        RemoveAllAfterKeepAll(vesselList, applied, HiddenSet(game.hiddenVessels));
        applied := applied + [HiddenSet(game.hiddenVessels)];
      }
      assert applied == stage1 + (if !c.hiddenToggled then [HiddenSet(c.hiddenVessels)] else []);
      ghost var stage2 := applied;

      if buttons.IsNearbyOnly {
        FilterForNearbyOnly(game);
        if game.inFlight {
          RemoveAllAfterKeepAll(vesselList, applied, NearbyOnly(game.LocalBody()));
          applied := applied + [NearbyOnly(game.LocalBody())];
        }
      }
      assert applied == stage2 + (if c.nearbyBody.Some? then [NearbyOnly(c.nearbyBody.value)] else []);
      ghost var stage3 := applied;

      PerformSearchOnVesselList();
      if !IsNullOrEmpty(searchTerm) {
        RemoveAllAfterKeepAll(vesselList, applied, NameSearch(searchTerm.value));
        applied := applied + [NameSearch(searchTerm.value)];
      }
      assert applied == stage3 + (if !IsNullOrEmpty(c.searchTerm) then [NameSearch(c.searchTerm.value)] else []);
      assert applied == ActiveFilters(c);
      ActiveFiltersComputeSpec(vesselList, c);
    }

    /** The grouping loop of `performFilters`: buckets the filtered vessels by body, in first-seen order. */
    method GroupByBody()
      modifies this`groupKeys, this`groupedBodyVessel
      ensures groupKeys == FirstSeenBodies(filteredVesselList)
      ensures groupedBodyVessel == Buckets(filteredVesselList)
    {
      var filtered := filteredVesselList;
      var keys: seq<Body> := [];
      var groups: map<Body, seq<Vessel>> := map[];
      var i := 0;
      while i < |filtered|
        invariant 0 <= i <= |filtered|
        invariant keys == FirstSeenBodies(filtered[..i])
        invariant groups == Buckets(filtered[..i])
      {
        var vessel := filtered[i];
        var body := vessel.referenceBody;
        assert filtered[..i + 1] == filtered[..i] + [vessel];
        GroupStep(filtered[..i], vessel, keys, groups);
        if body !in groups {
          groups := groups[body := []];
          keys := keys + [body];
        }
        groups := groups[body := groups[body] + [vessel]];
        i := i + 1;
      }
      assert filtered[..i] == filtered;
      groupKeys, groupedBodyVessel := keys, groups;
    }

    /** The loop sorting each bucket, in the dictionary's enumeration order. */
    method SortGroups(le: (Vessel, Vessel) -> bool)
      requires TotalPreorder(le)
      requires forall k :: k in groupKeys ==> k in groupedBodyVessel
      modifies this`groupedBodyVessel
      ensures groupedBodyVessel.Keys == old(groupedBodyVessel).Keys
      ensures forall k :: k in groupedBodyVessel ==> multiset(groupedBodyVessel[k]) == multiset(old(groupedBodyVessel)[k])
      ensures forall k :: k in groupKeys ==> DisplaySorted(groupedBodyVessel[k], le, listIsAscending)
    {
      var keys, groups := groupKeys, groupedBodyVessel;
      var j := 0;
      while j < |keys|
        invariant 0 <= j <= |keys|
        invariant groups.Keys == old(groupedBodyVessel).Keys
        invariant forall k :: k in groups ==> multiset(groups[k]) == multiset(old(groupedBodyVessel)[k])
        invariant forall m :: 0 <= m < j ==> DisplaySorted(groups[keys[m]], le, listIsAscending)
      {
        var body := keys[j];
        var sorted := PerformSort(groups[body], le);
        groups := groups[body := sorted];
        j := j + 1;
      }
      groupedBodyVessel := groups;
    }

    /** `performFilters`, on the vessel list as it is when read. */
    method PerformFilters(game: GameState, le: (Vessel, Vessel) -> bool)
      requires game.Wellformed() && TotalPreorder(le)
      modifies this`vesselList, this`filteredVesselList, this`filteredBodyList, this`groupKeys, this`groupedBodyVessel
      ensures vesselList == old(CurrentVesselList(game))
      ensures filteredVesselList == FilterSpec(vesselList, Settings(game))
      ensures FiltersApplied(game, le)
      ensures GroupsKeptUnlessGrouping(old(groupKeys), old(groupedBodyVessel))
    {
      ReadVesselList(game);
      ApplyFilters(game, le);
    }

    /** The body of `performFilters` once `vesselList` is read. */
    method ApplyFilters(game: GameState, le: (Vessel, Vessel) -> bool)
      requires game.Wellformed() && TotalPreorder(le)
      modifies this`filteredVesselList, this`filteredBodyList, this`groupKeys, this`groupedBodyVessel
      ensures filteredVesselList == FilterSpec(vesselList, Settings(game))
      ensures FiltersApplied(game, le)
      ensures GroupsKeptUnlessGrouping(old(groupKeys), old(groupedBodyVessel))
    {
      FilterVessels(game);
      ghost var filtered := FilterSpec(vesselList, Settings(game));
      FilterBodies(game);
      if buttons.GroupByOrbitingBody {
        RebuildGroups(le);
      }
      assert filteredVesselList == filtered == FilterSpec(vesselList, Settings(game));
    }

    /** The body list of `performFilters`: all bodies, narrowed by a non-empty search term. */
    method FilterBodies(game: GameState)
      modifies this`filteredBodyList
      ensures filteredBodyList == BodiesFor(game.celestialBodies, searchTerm)
    {
      filteredBodyList := game.celestialBodies;
      if !IsNullOrEmpty(searchTerm) {
        filteredBodyList := RemoveUnmatchedBodies(filteredBodyList, searchTerm.value);
      }
    }

    /** The grouping branch of `performFilters`: bucket the filtered vessels by body, then sort each bucket. */
    method RebuildGroups(le: (Vessel, Vessel) -> bool)
      requires TotalPreorder(le)
      modifies this`groupKeys, this`groupedBodyVessel
      ensures GroupsRebuilt(filteredVesselList, groupKeys, groupedBodyVessel, le, listIsAscending)
    {
      GroupByBody();
      ghost var unsorted := groupedBodyVessel;
      SortGroups(le);
      GroupsSorted(filteredVesselList, groupKeys, unsorted, groupedBodyVessel, le, listIsAscending);
    }

    /** `RefreshFilteredList`: refilters, then sorts the flat list. */
    method RefreshFilteredList(game: GameState, le: (Vessel, Vessel) -> bool)
      requires game.Wellformed() && TotalPreorder(le)
      modifies this`activeVessel, this`comparerKinds, this`vesselList,
               this`filteredVesselList, this`filteredBodyList, this`groupKeys, this`groupedBodyVessel
      ensures TracksActiveVessel(game, old(activeVessel), old(comparerKinds))
      ensures vesselList == old(CurrentVesselList(game))
      ensures Refreshed(game, le)
      ensures GroupsKeptUnlessGrouping(old(groupKeys), old(groupedBodyVessel))
    {
      UpdateActiveVessel(game);
      FilterAndSort(game, le);
    }

    /** The part of `RefreshFilteredList` after `updateActiveVessel`. */
    method FilterAndSort(game: GameState, le: (Vessel, Vessel) -> bool)
      requires game.Wellformed() && TotalPreorder(le)
      modifies this`vesselList, this`filteredVesselList, this`filteredBodyList, this`groupKeys, this`groupedBodyVessel
      ensures vesselList == old(CurrentVesselList(game))
      ensures Refreshed(game, le)
      ensures GroupsKeptUnlessGrouping(old(groupKeys), old(groupedBodyVessel))
    {
      PerformFilters(game, le);
      var filtered := filteredVesselList;
      ghost var settings := Settings(game);
      assert FiltersApplied(game, le) && filtered == FilterSpec(vesselList, settings);
      var sorted := PerformSort(filtered, le);
      filteredVesselList := sorted;
      assert Settings(game) == settings && FiltersApplied(game, le);
    }

    /** `FetchVesselList`: takes the game's vessel list (empty when null), counts the types and refilters. */
    method FetchVesselList(game: GameState, le: (Vessel, Vessel) -> bool)
      requires game.Wellformed() && TotalPreorder(le)
      modifies this`vesselList, this`listIsLive, this`vesselTypeCounts, this`activeVessel, this`comparerKinds,
               this`filteredVesselList, this`filteredBodyList, this`groupKeys, this`groupedBodyVessel
      ensures vesselList == if game.vessels.Some? then game.vessels.value else []
      ensures listIsLive == game.vessels.Some?
      ensures vesselTypeCounts == TypeCounts(vesselList)
      ensures TracksActiveVessel(game, old(activeVessel), old(comparerKinds))
      ensures filteredVesselList == FilterSpec(vesselList, Settings(game))
      ensures FiltersApplied(game, le)
      ensures GroupsKeptUnlessGrouping(old(groupKeys), old(groupedBodyVessel))
    {
      TakeVesselList(game);
      PerformFilters(game, le);
    }

    /** The part of `FetchVesselList` before `performFilters`. */
    method TakeVesselList(game: GameState)
      requires game.Wellformed()
      modifies this`vesselList, this`listIsLive, this`vesselTypeCounts, this`activeVessel, this`comparerKinds
      ensures vesselList == if game.vessels.Some? then game.vessels.value else []
      ensures listIsLive == game.vessels.Some?
      ensures vesselTypeCounts == TypeCounts(vesselList)
      ensures TracksActiveVessel(game, old(activeVessel), old(comparerKinds))
    {
      vesselList := if game.vessels.Some? then game.vessels.value else [];
      listIsLive := game.vessels.Some?;
      UpdateActiveVessel(game);
      CountVesselTypes();
    }

    /** The counting loop of `FetchVesselList`: one dictionary entry per type, counting its vessels. */
    method CountVesselTypes()
      modifies this`vesselTypeCounts
      ensures vesselTypeCounts == TypeCounts(vesselList)
    {
      vesselTypeCounts := CountTypes(vesselList);
    }

    /** The `SearchTerm` setter: updates the search comparer, and refreshes only when the term changed. */
    method SetSearchTerm(value: Option<string>, game: GameState, le: (Vessel, Vessel) -> bool)
      requires game.Wellformed() && TotalPreorder(le)
      modifies this`searchTerm, this`activeVessel, this`comparerKinds, this`vesselList,
               this`filteredVesselList, this`filteredBodyList, this`groupKeys, this`groupedBodyVessel
      ensures searchTerm == value
      ensures value == old(searchTerm) ==>
        comparerKinds == SearchComparerFor(old(comparerKinds), value) &&
        activeVessel == old(activeVessel) && vesselList == old(vesselList) &&
        filteredVesselList == old(filteredVesselList) && filteredBodyList == old(filteredBodyList) &&
        groupKeys == old(groupKeys) && groupedBodyVessel == old(groupedBodyVessel)
      ensures value != old(searchTerm) ==>
        && TracksActiveVessel(game, old(activeVessel), SearchComparerFor(old(comparerKinds), value))
        && vesselList == old(CurrentVesselList(game))
        && Refreshed(game, le)
        && GroupsKeptUnlessGrouping(old(groupKeys), old(groupedBodyVessel))
    {
      var previous := searchTerm;
      StoreSearchTerm(value);
      if previous != searchTerm {
        RefreshFilteredList(game, le);
      }
    }

    /** The part of the `SearchTerm` setter before the refresh. */
    method StoreSearchTerm(value: Option<string>)
      modifies this`searchTerm, this`comparerKinds
      ensures searchTerm == value
      ensures comparerKinds == SearchComparerFor(old(comparerKinds), value)
    {
      searchTerm := value;
      if IsNullOrEmpty(searchTerm) {
        comparerKinds := comparerKinds - {SearchRelevance};
      } else {
        comparerKinds := comparerKinds + {SearchRelevance};
      }
    }

    /** `onNearbyChanged`: outside flight nothing happens; in flight the nearby comparer follows the toggle. */
    method OnNearbyChanged(game: GameState, le: (Vessel, Vessel) -> bool)
      requires game.Wellformed() && TotalPreorder(le)
      modifies this`activeVessel, this`comparerKinds, this`vesselList,
               this`filteredVesselList, this`filteredBodyList, this`groupKeys, this`groupedBodyVessel
      ensures !game.inFlight ==>
        activeVessel == old(activeVessel) && comparerKinds == old(comparerKinds) && vesselList == old(vesselList) &&
        filteredVesselList == old(filteredVesselList) && filteredBodyList == old(filteredBodyList) &&
        groupKeys == old(groupKeys) && groupedBodyVessel == old(groupedBodyVessel)
      ensures game.inFlight ==>
        && activeVessel == game.activeVessel
        && (var kinds := if !SameVessel(game.activeVessel, old(activeVessel))
              then NearbyComparerRefreshed(old(comparerKinds)) else old(comparerKinds);
            comparerKinds == NearbyComparerFor(kinds, buttons.IsNearbyOnly))
        && vesselList == old(CurrentVesselList(game))
        && Refreshed(game, le)
        && GroupsKeptUnlessGrouping(old(groupKeys), old(groupedBodyVessel))
    {
      if !game.inFlight {
        return;
      }
      UpdateActiveVessel(game);
      if buttons.IsNearbyOnly {
        comparerKinds := comparerKinds + {Nearby};
      } else {
        comparerKinds := comparerKinds - {Nearby};
      }
      RefreshFilteredList(game, le);
    }

    /** `onSortOrderChanged`: takes the new order from the buttons and refreshes. */
    method OnSortOrderChanged(game: GameState, le: (Vessel, Vessel) -> bool)
      requires game.Wellformed() && TotalPreorder(le)
      modifies this`listIsAscending, this`activeVessel, this`comparerKinds, this`vesselList,
               this`filteredVesselList, this`filteredBodyList, this`groupKeys, this`groupedBodyVessel
      ensures listIsAscending == buttons.IsAscendingSortOrder
      ensures TracksActiveVessel(game, old(activeVessel), old(comparerKinds))
      ensures vesselList == old(CurrentVesselList(game))
      ensures Refreshed(game, le)
      ensures GroupsKeptUnlessGrouping(old(groupKeys), old(groupedBodyVessel))
    {
      listIsAscending := buttons.IsAscendingSortOrder;
      RefreshFilteredList(game, le);
    }

    /** `onHiddenVesselChanged`: refreshes. */
    method OnHiddenVesselChanged(game: GameState, le: (Vessel, Vessel) -> bool)
      requires game.Wellformed() && TotalPreorder(le)
      modifies this`activeVessel, this`comparerKinds, this`vesselList,
               this`filteredVesselList, this`filteredBodyList, this`groupKeys, this`groupedBodyVessel
      ensures TracksActiveVessel(game, old(activeVessel), old(comparerKinds))
      ensures vesselList == old(CurrentVesselList(game))
      ensures Refreshed(game, le)
      ensures GroupsKeptUnlessGrouping(old(groupKeys), old(groupedBodyVessel))
    {
      RefreshFilteredList(game, le);
    }
  }

  /** The loop counting the vessels of each type, over a local dictionary. */
  method CountTypes(vessels: seq<Vessel>) returns (counts: map<string, int>)
    ensures counts == TypeCounts(vessels)
  {
    counts := map[];
    TypeCountsEmpty();
    var i := 0;
    while i < |vessels|
      invariant 0 <= i <= |vessels|
      invariant counts == TypeCounts(vessels[..i])
    {
      var vessel := vessels[i];
      var typeString := vessel.vesselType;
      TypeCountsStep(vessels, i);
      if typeString in counts {
        counts := counts[typeString := counts[typeString] + 1];
      } else {
        counts := counts[typeString := 1];
      }
      i := i + 1;
    }
    assert vessels[..i] == vessels;
  }

  /** One step of the grouping loop: a new body opens an empty bucket at the end, then the vessel joins its bucket. */
  lemma GroupStep(prefix: seq<Vessel>, v: Vessel, keys: seq<Body>, groups: map<Body, seq<Vessel>>)
    requires keys == FirstSeenBodies(prefix) && groups == Buckets(prefix)
    ensures var b := v.referenceBody;
      var withBucket := if b in groups then groups else groups[b := []];
      && (if b in groups then keys else keys + [b]) == FirstSeenBodies(prefix + [v])
      && b in withBucket
      && withBucket[b := withBucket[b] + [v]] == Buckets(prefix + [v])
  {
    BucketsSnoc(prefix, v);
    FirstSeenBodiesSnoc(prefix, v);
    var b := v.referenceBody;
    assert b in groups <==> b in keys;
    if b !in groups {
      assert groups[b := []][b := [] + [v]] == groups[b := [v]];
    }
  }

  /** Sorting each bucket of freshly built groups gives the rebuilt groups. */
  lemma GroupsSorted(filtered: seq<Vessel>, keys: seq<Body>,
                     unsorted: map<Body, seq<Vessel>>, sorted: map<Body, seq<Vessel>>,
                     le: (Vessel, Vessel) -> bool, ascending: bool)
    requires keys == FirstSeenBodies(filtered) && unsorted == Buckets(filtered)
    requires sorted.Keys == unsorted.Keys
    requires forall k :: k in sorted ==> multiset(sorted[k]) == multiset(unsorted[k])
    requires forall k :: k in keys ==> DisplaySorted(sorted[k], le, ascending)
    ensures GroupsRebuilt(filtered, keys, sorted, le, ascending)
  {
    forall k | k in sorted ensures DisplaySorted(sorted[k], le, ascending) {
      assert k in BodiesOf(filtered);
    }
    BucketsPartition(filtered);
    UnionOfAgree(keys, sorted, unsorted);
  }
}
