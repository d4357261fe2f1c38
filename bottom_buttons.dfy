/**
 * `BottomButtons`: the group-by, nearby-only and hidden-vessel toggles, the
 * two-button sort-order control, the persisted settings, and the rules that
 * enable the fly and target buttons. A toggle's value after a frame is what
 * `GUILayout.Toggle` returned, which the model takes as an input; an event
 * that fires is recorded by a counter (or, for the fly and target buttons,
 * by the request it carries).
 */
module BottomButtonsView {
  import opened Wrappers
  import opened Game

  // ---------------------------------------------------------------------------
  // Sort order

  /**
   * The order after a frame of `sortOrderButtons`, from the previous order and
   * what the ascending and descending toggles returned. Before the frame the
   * ascending toggle shows `previous` and the descending toggle `!previous`.
   */
  function NextSortOrder(previous: bool, ascendingButton: bool, descendingButton: bool): bool {
    var ascPrev, descPrev := previous, !previous;
    if previous && ascPrev == ascendingButton && descendingButton != descPrev then !previous
    else if !previous && descPrev == descendingButton && ascendingButton != ascPrev then !previous
    else previous
  }

  /**
   * From ascending, the order turns descending exactly when the descending toggle
   * flipped and the ascending one did not; from descending, the mirror rule.
   * Equivalently, the order flips exactly when both toggles come back on.
   */
  lemma SortOrderRule(previous: bool, ascendingButton: bool, descendingButton: bool)
    ensures previous ==>
      (!NextSortOrder(previous, ascendingButton, descendingButton) <==>
        ascendingButton == previous && descendingButton != !previous)
    ensures !previous ==>
      (NextSortOrder(previous, ascendingButton, descendingButton) <==>
        descendingButton == !previous && ascendingButton != previous)
    ensures NextSortOrder(previous, ascendingButton, descendingButton) != previous <==>
      ascendingButton && descendingButton
  {
  }

  /** Clicking the button of the active order switches it off, and the order stays. */
  lemma ClickingActiveOrderKeepsIt(previous: bool)
    ensures NextSortOrder(previous, false, false) == previous
    ensures NextSortOrder(previous, previous, !previous) == previous
  {
  }

  // ---------------------------------------------------------------------------
  // Settings

  /** The settings table `HaystackResourceLoader` keeps for the bottom buttons. */
  type Settings = map<string, bool>

  const AscendingKey: string := "ascending"
  const NearbyKey: string := "nearby"
  const GroupByKey: string := "groupby"

  datatype ButtonFlags = ButtonFlags(
    groupByOrbitingBody: bool,
    isHiddenVesselsToggled: bool,
    isNearbyOnly: bool,
    isAscendingSortOrder: bool)

  /** `SaveSettings`: writes the sort order, nearby-only and group-by under their keys. */
  function Save(settings: Settings, f: ButtonFlags): (r: Settings)
    ensures r.Keys == settings.Keys + {AscendingKey, NearbyKey, GroupByKey}
    ensures forall k :: k in r && k != AscendingKey && k != NearbyKey && k != GroupByKey ==> r[k] == settings[k]
    ensures r[AscendingKey] == f.isAscendingSortOrder && r[NearbyKey] == f.isNearbyOnly && r[GroupByKey] == f.groupByOrbitingBody
  {
    settings[AscendingKey := f.isAscendingSortOrder][NearbyKey := f.isNearbyOnly][GroupByKey := f.groupByOrbitingBody]
  }

  /** What `LoadSettings` leaves behind, and whether it got through all three reads. */
  datatype LoadOutcome = LoadOutcome(flags: ButtonFlags, completed: bool)

  /**
   * `LoadSettings`: reads the three keys in order. The dictionary indexer throws
   * on a missing key, so the flags read before it stay assigned and the rest do not.
   */
  function Load(settings: Settings, f: ButtonFlags): LoadOutcome {
    if AscendingKey !in settings then LoadOutcome(f, false)
    else
      var f1 := f.(isAscendingSortOrder := settings[AscendingKey]);
      if NearbyKey !in settings then LoadOutcome(f1, false)
      else
        var f2 := f1.(isNearbyOnly := settings[NearbyKey]);
        if GroupByKey !in settings then LoadOutcome(f2, false)
        else LoadOutcome(f2.(groupByOrbitingBody := settings[GroupByKey]), true)
  }

  /** Saving and then loading restores the three persisted flags and leaves the hidden toggle alone. */
  lemma LoadAfterSave(settings: Settings, saved: ButtonFlags, current: ButtonFlags)
    ensures Load(Save(settings, saved), current) == LoadOutcome(
      current.(isAscendingSortOrder := saved.isAscendingSortOrder,
               isNearbyOnly := saved.isNearbyOnly,
               groupByOrbitingBody := saved.groupByOrbitingBody), true)
  {
  }

  /** The hidden-vessel toggle is not persisted. */
  lemma HiddenToggleNotPersisted(settings: Settings, f: ButtonFlags, hidden: bool)
    ensures Save(settings, f) == Save(settings, f.(isHiddenVesselsToggled := hidden))
    ensures Load(settings, f).flags.isHiddenVesselsToggled == f.isHiddenVesselsToggled
  {
  }

  // ---------------------------------------------------------------------------
  // Fly and target buttons

  /** `getSelectedVessel`: the grouped view's selection when grouping, else the default view's. */
  function GetSelectedVessel(groupBy: bool, groupedSelected: Option<Vessel>, defaultSelected: Option<Vessel>): Option<Vessel> {
    if groupBy then groupedSelected else defaultSelected
  }

  /** `isFlyButtonDisabled`. */
  predicate IsFlyButtonDisabled(groupBy: bool, groupedSelected: Option<Vessel>, defaultSelected: Option<Vessel>, game: GameState) {
    var vessel := if groupBy then groupedSelected else defaultSelected;
    vessel.None? || SameVessel(game.activeVessel, vessel)
  }

  /** `isTargetButtonDisabled`. */
  predicate IsTargetButtonDisabled(
    groupBy: bool, groupedSelected: Option<Vessel>,
    defaultSelected: Option<Vessel>, defaultSelectedBody: Option<Body>, game: GameState)
    requires game.Wellformed()
  {
    if !game.inFlight then true
    else if groupBy then groupedSelected.None? || SameVessel(groupedSelected, game.activeVessel)
    else if defaultSelectedBody.Some? && game.LocalBody() != defaultSelectedBody.value then false
    else defaultSelected.None? || SameVessel(game.activeVessel, defaultSelected)
  }

  /** What the target button would target: a vessel or a body. */
  datatype Target = TargetVessel(vessel: Vessel) | TargetBody(body: Body)

  /** The selection `targetButton` hands to `SetVesselTarget`, if any. */
  function TargetSelection(
    groupBy: bool, groupedSelected: Option<Vessel>,
    defaultSelected: Option<Vessel>, defaultSelectedBody: Option<Body>): Option<Target>
  {
    if groupBy then (if groupedSelected.Some? then Some(TargetVessel(groupedSelected.value)) else None)
    else if defaultSelected.Some? then Some(TargetVessel(defaultSelected.value))
    else if defaultSelectedBody.Some? then Some(TargetBody(defaultSelectedBody.value))
    else None
  }

  /**
   * The fly button is disabled exactly when the mode's selected vessel is
   * missing or is the active vessel, by identity: a selection made before the
   * active vessel's name or orbit changed still counts as the active vessel.
   */
  lemma FlyButtonRule(groupBy: bool, groupedSelected: Option<Vessel>, defaultSelected: Option<Vessel>, game: GameState)
    ensures var sel := GetSelectedVessel(groupBy, groupedSelected, defaultSelected);
      IsFlyButtonDisabled(groupBy, groupedSelected, defaultSelected, game) <==>
        sel.None? || (game.activeVessel.Some? && sel.value.id == game.activeVessel.value.id)
  {
  }

  /** The four cases of the target button. */
  lemma TargetButtonRule(
    groupBy: bool, groupedSelected: Option<Vessel>,
    defaultSelected: Option<Vessel>, defaultSelectedBody: Option<Body>, game: GameState)
    requires game.Wellformed()
    ensures !game.inFlight ==> IsTargetButtonDisabled(groupBy, groupedSelected, defaultSelected, defaultSelectedBody, game)
    ensures game.inFlight && groupBy ==>
      (IsTargetButtonDisabled(groupBy, groupedSelected, defaultSelected, defaultSelectedBody, game) <==>
        IsFlyButtonDisabled(groupBy, groupedSelected, defaultSelected, game))
    ensures game.inFlight && !groupBy && defaultSelectedBody.Some? && defaultSelectedBody.value != game.LocalBody() ==>
      !IsTargetButtonDisabled(groupBy, groupedSelected, defaultSelected, defaultSelectedBody, game)
    ensures game.inFlight && !groupBy && (defaultSelectedBody.None? || defaultSelectedBody.value == game.LocalBody()) ==>
      (IsTargetButtonDisabled(groupBy, groupedSelected, defaultSelected, defaultSelectedBody, game) <==>
        IsFlyButtonDisabled(groupBy, groupedSelected, defaultSelected, game))
  {
  }

  /**
   * With the default view's selections exclusive (as its setters keep them), a
   * selected body can be targeted exactly when it is not the body the active
   * vessel orbits.
   */
  lemma TargetSelectedBody(defaultSelectedBody: Body, groupedSelected: Option<Vessel>, game: GameState)
    requires game.Wellformed() && game.inFlight
    ensures IsTargetButtonDisabled(false, groupedSelected, None, Some(defaultSelectedBody), game) <==>
      defaultSelectedBody == game.LocalBody()
  {
  }

  /** An enabled target button always has something to target. */
  lemma EnabledTargetHasSelection(
    groupBy: bool, groupedSelected: Option<Vessel>,
    defaultSelected: Option<Vessel>, defaultSelectedBody: Option<Body>, game: GameState)
    requires game.Wellformed()
    requires !IsTargetButtonDisabled(groupBy, groupedSelected, defaultSelected, defaultSelectedBody, game)
    ensures TargetSelection(groupBy, groupedSelected, defaultSelected, defaultSelectedBody).Some?
  {
  }

  // ---------------------------------------------------------------------------
  // The component

  class BottomButtons {
    var GroupByOrbitingBody: bool
    var IsHiddenVesselsToggled: bool
    var IsNearbyOnly: bool
    var IsAscendingSortOrder: bool

    // Times each change event has fired.
    var groupByChangedEvents: nat
    var hiddenVesselsChangedEvents: nat
    var nearbyChangedEvents: nat
    var sortOrderChangedEvents: nat

    /** The vessels `OnSwitchVessel` was fired with, and the targets handed to `SetVesselTarget`. */
    var switchVesselRequests: seq<Vessel>
    var targetRequests: seq<Target>

    constructor ()
      ensures IsAscendingSortOrder && !GroupByOrbitingBody && !IsHiddenVesselsToggled && !IsNearbyOnly
      ensures groupByChangedEvents == hiddenVesselsChangedEvents == nearbyChangedEvents == sortOrderChangedEvents == 0
      ensures switchVesselRequests == [] && targetRequests == []
    {
      IsAscendingSortOrder := true;
      GroupByOrbitingBody, IsHiddenVesselsToggled, IsNearbyOnly := false, false, false;
      groupByChangedEvents, hiddenVesselsChangedEvents, nearbyChangedEvents, sortOrderChangedEvents := 0, 0, 0, 0;
      switchVesselRequests, targetRequests := [], [];
    }

    function Flags(): ButtonFlags
      reads this
    {
      ButtonFlags(GroupByOrbitingBody, IsHiddenVesselsToggled, IsNearbyOnly, IsAscendingSortOrder)
    }

    /** The event counters and requests, which `LoadSettings` and `SaveSettings` do not touch. */
    ghost predicate EventsUnchangedFrom(groupBy: nat, hidden: nat, nearby: nat, sortOrder: nat,
                                        switches: seq<Vessel>, targets: seq<Target>)
      reads this
    {
      && groupByChangedEvents == groupBy && hiddenVesselsChangedEvents == hidden
      && nearbyChangedEvents == nearby && sortOrderChangedEvents == sortOrder
      && switchVesselRequests == switches && targetRequests == targets
    }

    method LoadSettings(settings: Settings) returns (completed: bool)
      modifies this
      ensures Flags() == Load(settings, old(Flags())).flags
      ensures completed == Load(settings, old(Flags())).completed
      ensures EventsUnchangedFrom(old(groupByChangedEvents), old(hiddenVesselsChangedEvents),
        old(nearbyChangedEvents), old(sortOrderChangedEvents), old(switchVesselRequests), old(targetRequests))
    {
      completed := false;
      if AscendingKey !in settings { return; }
      IsAscendingSortOrder := settings[AscendingKey];
      if NearbyKey !in settings { return; }
      IsNearbyOnly := settings[NearbyKey];
      if GroupByKey !in settings { return; }
      GroupByOrbitingBody := settings[GroupByKey];
      completed := true;
    }

    method SaveSettings(settings: Settings) returns (saved: Settings)
      ensures saved == Save(settings, Flags())
    {
      saved := settings;
      saved := saved[AscendingKey := IsAscendingSortOrder];
      saved := saved[NearbyKey := IsNearbyOnly];
      saved := saved[GroupByKey := GroupByOrbitingBody];
    }

    /** `groupByButton`: takes the toggle's new value and fires `OnGroupByChanged` if it changed. */
    method GroupByButton(toggled: bool)
      modifies this`GroupByOrbitingBody, this`groupByChangedEvents
      ensures GroupByOrbitingBody == toggled
      ensures groupByChangedEvents == old(groupByChangedEvents) + if old(GroupByOrbitingBody) != toggled then 1 else 0
    {
      var previous := GroupByOrbitingBody;
      GroupByOrbitingBody := toggled;
      if previous != GroupByOrbitingBody {
        groupByChangedEvents := groupByChangedEvents + 1;
      }
    }

    /** `nearbyButton`: takes the toggle's new value and fires `OnNearbyChanged` if it changed. */
    method NearbyButton(toggled: bool)
      modifies this`IsNearbyOnly, this`nearbyChangedEvents
      ensures IsNearbyOnly == toggled
      ensures nearbyChangedEvents == old(nearbyChangedEvents) + if old(IsNearbyOnly) != toggled then 1 else 0
    {
      var previous := IsNearbyOnly;
      IsNearbyOnly := toggled;
      if previous != IsNearbyOnly {
        nearbyChangedEvents := nearbyChangedEvents + 1;
      }
    }

    /** `hiddenVesselsButton`: takes the toggle's new value and fires `OnHiddenVesselsChanged` if it changed. */
    method HiddenVesselsButton(toggled: bool)
      modifies this`IsHiddenVesselsToggled, this`hiddenVesselsChangedEvents
      ensures IsHiddenVesselsToggled == toggled
      ensures hiddenVesselsChangedEvents == old(hiddenVesselsChangedEvents) + if old(IsHiddenVesselsToggled) != toggled then 1 else 0
    {
      var previous := IsHiddenVesselsToggled;
      IsHiddenVesselsToggled := toggled;
      if previous != IsHiddenVesselsToggled {
        hiddenVesselsChangedEvents := hiddenVesselsChangedEvents + 1;
      }
    }

    /** `sortOrderButtons`: resolves the two toggles and fires `OnSortOrderChanged` when the order changed. */
    method SortOrderButtons(ascendingButton: bool, descendingButton: bool)
      modifies this`IsAscendingSortOrder, this`sortOrderChangedEvents
      ensures IsAscendingSortOrder == NextSortOrder(old(IsAscendingSortOrder), ascendingButton, descendingButton)
      ensures sortOrderChangedEvents ==
        old(sortOrderChangedEvents) + if IsAscendingSortOrder != old(IsAscendingSortOrder) then 1 else 0
    {
      var previous := IsAscendingSortOrder;
      var ascPrev := IsAscendingSortOrder;
      var descPrev := !IsAscendingSortOrder;
      var next := previous;
      if previous && ascPrev == ascendingButton && descendingButton != descPrev {
        next := !previous;
      }
      if !previous && descPrev == descendingButton && ascendingButton != ascPrev {
        next := !previous;
      }
      IsAscendingSortOrder := next;
      if previous != next {
        sortOrderChangedEvents := sortOrderChangedEvents + 1;
      }
    }

    /**
     * `flyButton`: a disabled button reports no click; an accepted click fires
     * `OnSwitchVessel` with the mode's selected vessel.
     */
    method FlyButton(clicked: bool, groupedSelected: Option<Vessel>, defaultSelected: Option<Vessel>, game: GameState)
      modifies this`switchVesselRequests
      ensures var accepted := clicked && !IsFlyButtonDisabled(GroupByOrbitingBody, groupedSelected, defaultSelected, game);
        switchVesselRequests == old(switchVesselRequests) +
          if accepted then [GetSelectedVessel(GroupByOrbitingBody, groupedSelected, defaultSelected).value] else []
      ensures |switchVesselRequests| > |old(switchVesselRequests)| ==>
        !SameVessel(Some(switchVesselRequests[|switchVesselRequests| - 1]), game.activeVessel)
    {
      if clicked && !IsFlyButtonDisabled(GroupByOrbitingBody, groupedSelected, defaultSelected, game) {
        var selected := GetSelectedVessel(GroupByOrbitingBody, groupedSelected, defaultSelected);
        switchVesselRequests := switchVesselRequests + [selected.value];
      }
    }

    /**
     * `targetButton`: a disabled button reports no click; an accepted click
     * targets the grouped view's vessel, or the default view's vessel or else body.
     */
    method TargetButton(clicked: bool, groupedSelected: Option<Vessel>,
                        defaultSelected: Option<Vessel>, defaultSelectedBody: Option<Body>, game: GameState)
      requires game.Wellformed()
      modifies this`targetRequests
      ensures var accepted := clicked && !IsTargetButtonDisabled(GroupByOrbitingBody, groupedSelected, defaultSelected, defaultSelectedBody, game);
        targetRequests == old(targetRequests) +
          if accepted then [TargetSelection(GroupByOrbitingBody, groupedSelected, defaultSelected, defaultSelectedBody).value] else []
    {
      if clicked && !IsTargetButtonDisabled(GroupByOrbitingBody, groupedSelected, defaultSelected, defaultSelectedBody, game) {
        EnabledTargetHasSelection(GroupByOrbitingBody, groupedSelected, defaultSelected, defaultSelectedBody, game);
        var selected := TargetSelection(GroupByOrbitingBody, groupedSelected, defaultSelected, defaultSelectedBody);
        targetRequests := targetRequests + [selected.value];
      }
    }
  }
}
