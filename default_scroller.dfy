/**
 * `DefaultScrollerView`: the flat list of vessels (and, optionally, bodies)
 * with a single selection. Selecting a vessel clears the selected body and
 * the other way round. A frame of `Draw` collects the clicks made on the list
 * items and then resolves them against the current selection.
 *
 * The GUI's answers are inputs: the indices of the vessel entries and body
 * entries whose rectangle took a left mouse-down this frame, whether the
 * mouse was inside the scroll area, and the new scroll position.
 */
module DefaultScroller {
  import opened Wrappers
  import opened Game

  /** A `Vector2` scroll position. */
  datatype ScrollPosition = ScrollPosition(x: real, y: real)

  const Origin: ScrollPosition := ScrollPosition(0.0, 0.0)

  /** The index of the last clicked live vessel among the first `n` entries, or -1. */
  function LastLiveClick(vessels: seq<Vessel>, clicks: set<nat>, n: nat): (k: int)
    requires n <= |vessels|
    ensures -1 <= k < n
    ensures k != -1 ==> k in clicks && !vessels[k].destroyed
    ensures forall j :: k < j < n && j in clicks ==> vessels[j].destroyed
  {
    if n == 0 then -1
    else if n - 1 in clicks && !vessels[n - 1].destroyed then n - 1
    else LastLiveClick(vessels, clicks, n - 1)
  }

  /**
   * The vessel the vessel loop of `Draw` leaves in `preSelectedVessel`: the last
   * clicked entry among the first `n`, skipping destroyed vessels (Unity reports
   * them as null).
   */
  function LastClickedVessel(vessels: seq<Vessel>, clicks: set<nat>, n: nat): (r: Option<Vessel>)
    requires n <= |vessels|
    ensures r.Some? ==> !r.value.destroyed
    ensures r.Some? ==> exists i :: (0 <= i < n && i in clicks && vessels[i] == r.value &&
      forall j :: i < j < n && j in clicks ==> vessels[j].destroyed)
    ensures r.None? <==> forall i :: 0 <= i < n && i in clicks ==> vessels[i].destroyed
  {
    var k := LastLiveClick(vessels, clicks, n);
    if k == -1 then None else Some(vessels[k])
  }

  /** The index of the last clicked body among the first `n` that is not the selected one, or -1. */
  function LastNewBodyClick(bodies: seq<Body>, clicks: set<nat>, selected: Option<Body>, n: nat): (k: int)
    requires n <= |bodies|
    ensures -1 <= k < n
    ensures k != -1 ==> k in clicks && Some(bodies[k]) != selected
    ensures forall j :: k < j < n && j in clicks ==> Some(bodies[j]) == selected
  {
    if n == 0 then -1
    else if n - 1 in clicks && Some(bodies[n - 1]) != selected then n - 1
    else LastNewBodyClick(bodies, clicks, selected, n - 1)
  }

  /**
   * The body the body loop leaves in `preSelecedBody`: the last clicked entry
   * among the first `n` that is not the selected body.
   */
  function LastClickedNewBody(bodies: seq<Body>, clicks: set<nat>, selected: Option<Body>, n: nat): (r: Option<Body>)
    requires n <= |bodies|
    ensures r.Some? ==> r != selected
    ensures r.Some? ==> exists i :: (0 <= i < n && i in clicks && bodies[i] == r.value &&
      forall j :: i < j < n && j in clicks ==> Some(bodies[j]) == selected)
    ensures r.None? <==> forall i :: 0 <= i < n && i in clicks ==> Some(bodies[i]) == selected
  {
    var k := LastNewBodyClick(bodies, clicks, selected, n);
    if k == -1 then None else Some(bodies[k])
  }

  /** How many clicks in the body loop landed on the already selected body; each fires `OnSelectedItemClicked`. */
  function SelectedBodyReclicks(bodies: seq<Body>, clicks: set<nat>, selected: Option<Body>, n: nat): (r: nat)
    requires n <= |bodies|
    ensures r <= n
    ensures selected.None? ==> r == 0
    ensures r == 0 <==> forall i :: 0 <= i < n && i in clicks ==> Some(bodies[i]) != selected
  {
    if n == 0 then 0
    else
      var earlier := SelectedBodyReclicks(bodies, clicks, selected, n - 1);
      if n - 1 in clicks && Some(bodies[n - 1]) == selected then earlier + 1 else earlier
  }

  /** The indices among the first `n` whose click landed on the selected body. */
  ghost function ReclickIndices(bodies: seq<Body>, clicks: set<nat>, selected: Option<Body>, n: nat): set<nat>
    requires n <= |bodies|
  {
    set i: nat | i < n && i in clicks && Some(bodies[i]) == selected
  }

  /** The re-click count is the number of clicked entries showing the selected body. */
  lemma {:induction false} SelectedBodyReclicksCounts(bodies: seq<Body>, clicks: set<nat>, selected: Option<Body>, n: nat)
    requires n <= |bodies|
    ensures SelectedBodyReclicks(bodies, clicks, selected, n) == |ReclickIndices(bodies, clicks, selected, n)|
  {
    if n == 0 {
      assert ReclickIndices(bodies, clicks, selected, n) == {};
    } else {
      SelectedBodyReclicksCounts(bodies, clicks, selected, n - 1);
      var hit := n - 1 in clicks && Some(bodies[n - 1]) == selected;
      assert n - 1 !in ReclickIndices(bodies, clicks, selected, n - 1);
      assert ReclickIndices(bodies, clicks, selected, n) ==
        ReclickIndices(bodies, clicks, selected, n - 1) + if hit then {n - 1} else {};
    }
  }

  /** The outcome of the tail of `Draw`. */
  datatype ClickOutcome =
    | Ignored                       // nothing clicked, or the mouse was outside the scroll area
    | ReClicked                     // the selected vessel was clicked again
    | NewBody(body: Body)           // a body became the selection
    | NewVessel(vessel: Vessel)     // a vessel became the selection
    | Unchanged                     // the view resets but the selection stays

  /** The tail of `Draw`: from what the loops collected, decide what the click does. */
  function ResolveClick(
    clicked: bool, inScrollArea: bool,
    preSelectedVessel: Option<Vessel>, preSelectedBody: Option<Body>,
    selectedVessel: Option<Vessel>, selectedBody: Option<Body>): (r: ClickOutcome)
    ensures !clicked || !inScrollArea ==> r == Ignored
    ensures r == ReClicked <==>
      clicked && inScrollArea && preSelectedVessel.Some? && SameVessel(preSelectedVessel, selectedVessel)
    ensures r.NewBody? ==> Some(r.body) == preSelectedBody && preSelectedBody != selectedBody
    ensures r.NewVessel? ==> Some(r.vessel) == preSelectedVessel && !SameVessel(preSelectedVessel, selectedVessel)
  {
    if !clicked || !inScrollArea then Ignored
    else if preSelectedVessel.Some? && SameVessel(preSelectedVessel, selectedVessel) then ReClicked
    else if preSelectedBody.Some? && preSelectedBody != selectedBody then NewBody(preSelectedBody.value)
    else if preSelectedVessel.Some? && !SameVessel(preSelectedVessel, selectedVessel) then NewVessel(preSelectedVessel.value)
    else Unchanged
  }

  /**
   * Clicking the selected vessel again is a re-click even when its fields
   * (name, orbit, parts) have changed since it was selected: it is the same object.
   */
  lemma ReclickSurvivesChanges(clickedVessel: Vessel, selected: Vessel)
    requires clickedVessel.id == selected.id
    ensures ResolveClick(true, true, Some(clickedVessel), None, Some(selected), None) == ReClicked
  {
  }

  /**
   * A newly clicked body wins over a newly clicked vessel, unless the clicked
   * vessel is the selected one, which is a re-click.
   */
  lemma BodyTakesPrecedence(
    preSelectedVessel: Option<Vessel>, preSelectedBody: Option<Body>,
    selectedVessel: Option<Vessel>, selectedBody: Option<Body>)
    requires preSelectedBody.Some? && preSelectedBody != selectedBody
    requires preSelectedVessel.None? || !SameVessel(preSelectedVessel, selectedVessel)
    ensures ResolveClick(true, true, preSelectedVessel, preSelectedBody, selectedVessel, selectedBody) ==
      NewBody(preSelectedBody.value)
  {
  }

  /**
   * With the loops' guarantees (something was collected whenever `clicked`, and
   * a collected body is never the selected one), an accepted click always
   * re-clicks or changes the selection.
   */
  lemma AcceptedClickAlwaysDecides(
    preSelectedVessel: Option<Vessel>, preSelectedBody: Option<Body>,
    selectedVessel: Option<Vessel>, selectedBody: Option<Body>)
    requires preSelectedVessel.Some? || preSelectedBody.Some?
    requires preSelectedBody.Some? ==> preSelectedBody != selectedBody
    ensures ResolveClick(true, true, preSelectedVessel, preSelectedBody, selectedVessel, selectedBody) != Unchanged
    ensures ResolveClick(true, true, preSelectedVessel, preSelectedBody, selectedVessel, selectedBody) != Ignored
  {
  }

  class DefaultScrollerView {
    var scrollPos: ScrollPosition
    var selectedVessel: Option<Vessel>
    var selectedBody: Option<Body>
    var ShowCelestialBodies: bool

    // Times `OnSelectionChanged` and `OnSelectedItemClicked` have fired, and
    // times the vessel info view was reset.
    var selectionChangedEvents: nat
    var selectedItemClickedEvents: nat
    var infoViewResets: nat

    /** The two selections exclude each other. */
    ghost predicate Valid()
      reads this
    {
      selectedVessel.None? || selectedBody.None?
    }

    constructor ()
      ensures Valid()
      ensures scrollPos == Origin && selectedVessel == None && selectedBody == None && !ShowCelestialBodies
      ensures selectionChangedEvents == 0 && selectedItemClickedEvents == 0 && infoViewResets == 0
    {
      scrollPos := Origin;
      selectedVessel, selectedBody := None, None;
      ShowCelestialBodies := false;
      selectionChangedEvents, selectedItemClickedEvents, infoViewResets := 0, 0, 0;
    }

    /** The `SelectedVessel` setter: also clears the selected body. */
    method SetSelectedVessel(value: Option<Vessel>)
      modifies this`selectedVessel, this`selectedBody
      ensures selectedVessel == value && selectedBody == None
      ensures Valid()
    {
      selectedVessel := value;
      selectedBody := None;
    }

    /** The `SelectedBody` setter: also clears the selected vessel. */
    method SetSelectedBody(value: Option<Body>)
      modifies this`selectedVessel, this`selectedBody
      ensures selectedBody == value && selectedVessel == None
      ensures Valid()
    {
      selectedBody := value;
      selectedVessel := None;
    }

    /** `reset`, run when grouping is toggled. */
    method Reset()
      modifies this`scrollPos, this`selectedVessel, this`selectedBody, this`infoViewResets
      ensures scrollPos == Origin && selectedVessel == None && selectedBody == None
      ensures infoViewResets == old(infoViewResets) + 1
      ensures Valid()
    {
      scrollPos := Origin;
      selectedVessel := None;
      selectedBody := None;
      infoViewResets := infoViewResets + 1;
    }

    /**
     * One frame of `Draw` over the controller's display lists. `vesselClicks`
     * and `bodyClicks` are the entry indices that took a click.
     */
    method Draw(displayVessels: seq<Vessel>, displayBodies: seq<Body>,
                vesselClicks: set<nat>, bodyClicks: set<nat>,
                newScrollPos: ScrollPosition, inScrollArea: bool)
      requires Valid()
      modifies this`scrollPos, this`selectedVessel, this`selectedBody,
               this`selectionChangedEvents, this`selectedItemClickedEvents, this`infoViewResets
      ensures Valid()
      // an empty list with the bodies hidden shows "No match found" and changes nothing
      ensures displayVessels == [] && !ShowCelestialBodies ==>
        scrollPos == old(scrollPos) && selectedVessel == old(selectedVessel) && selectedBody == old(selectedBody) &&
        selectionChangedEvents == old(selectionChangedEvents) &&
        selectedItemClickedEvents == old(selectedItemClickedEvents) && infoViewResets == old(infoViewResets)
      ensures !(displayVessels == [] && !ShowCelestialBodies) ==>
        var preVessel := LastClickedVessel(displayVessels, vesselClicks, |displayVessels|);
        var preBody := if ShowCelestialBodies
          then LastClickedNewBody(displayBodies, bodyClicks, old(selectedBody), |displayBodies|) else None;
        var reclicks := if ShowCelestialBodies
          then SelectedBodyReclicks(displayBodies, bodyClicks, old(selectedBody), |displayBodies|) else 0;
        var outcome := ResolveClick(preVessel.Some? || preBody.Some?, inScrollArea,
                                    preVessel, preBody, old(selectedVessel), old(selectedBody));
        && scrollPos == newScrollPos
        && (outcome.NewBody? ==> selectedBody == Some(outcome.body) && selectedVessel == None)
        && (outcome.NewVessel? ==> selectedVessel == Some(outcome.vessel) && selectedBody == None)
        && (!outcome.NewBody? && !outcome.NewVessel? ==>
              selectedVessel == old(selectedVessel) && selectedBody == old(selectedBody))
        && selectionChangedEvents == old(selectionChangedEvents) + (if outcome.NewBody? || outcome.NewVessel? then 1 else 0)
        && selectedItemClickedEvents == old(selectedItemClickedEvents) + reclicks + (if outcome == ReClicked then 1 else 0)
        && infoViewResets == old(infoViewResets) + (if outcome == Ignored || outcome == ReClicked then 0 else 1)
    {
      if displayVessels == [] && !ShowCelestialBodies {
        return;
      }
      scrollPos := newScrollPos;
      var preSelectedVessel := CollectVesselClick(displayVessels, vesselClicks);
      var clicked := preSelectedVessel.Some?;
      var preSelectedBody: Option<Body> := None;
      if ShowCelestialBodies {
        preSelectedBody := CollectBodyClick(displayBodies, bodyClicks);
        clicked := clicked || preSelectedBody.Some?;
      }
      ResolveTail(clicked, inScrollArea, preSelectedVessel, preSelectedBody);
    }

    /** The vessel loop of `Draw`: remembers the last clicked live vessel. */
    method CollectVesselClick(displayVessels: seq<Vessel>, vesselClicks: set<nat>) returns (preSelectedVessel: Option<Vessel>)
      ensures preSelectedVessel == LastClickedVessel(displayVessels, vesselClicks, |displayVessels|)
    {
      preSelectedVessel := None;
      var i := 0;
      while i < |displayVessels|
        invariant 0 <= i <= |displayVessels|
        invariant preSelectedVessel == LastClickedVessel(displayVessels, vesselClicks, i)
      {
        var vessel := displayVessels[i];
        assert LastClickedVessel(displayVessels, vesselClicks, i + 1) ==
          if i in vesselClicks && !vessel.destroyed then Some(vessel) else LastClickedVessel(displayVessels, vesselClicks, i);
        if vessel.destroyed {
          i := i + 1;
          continue;
        }
        if i !in vesselClicks {
          i := i + 1;
          continue;
        }
        preSelectedVessel := Some(vessel);
        i := i + 1;
      }
    }

    /**
     * The body loop of `Draw`: a click on the selected body fires
     * `OnSelectedItemClicked` at once; the last click on another body is remembered.
     */
    method CollectBodyClick(displayBodies: seq<Body>, bodyClicks: set<nat>) returns (preSelectedBody: Option<Body>)
      modifies this`selectedItemClickedEvents
      ensures preSelectedBody == LastClickedNewBody(displayBodies, bodyClicks, selectedBody, |displayBodies|)
      ensures selectedItemClickedEvents ==
        old(selectedItemClickedEvents) + SelectedBodyReclicks(displayBodies, bodyClicks, selectedBody, |displayBodies|)
    {
      var reclicks;
      preSelectedBody, reclicks := ScanBodyClicks(displayBodies, bodyClicks, selectedBody);
      selectedItemClickedEvents := selectedItemClickedEvents + reclicks;
    }

    /** The tail of `Draw`, after both loops. */
    method ResolveTail(clicked: bool, inScrollArea: bool,
                       preSelectedVessel: Option<Vessel>, preSelectedBody: Option<Body>)
      requires Valid()
      modifies this`selectedVessel, this`selectedBody,
               this`selectionChangedEvents, this`selectedItemClickedEvents, this`infoViewResets
      ensures Valid()
      ensures var outcome := ResolveClick(clicked, inScrollArea, preSelectedVessel, preSelectedBody,
                                          old(selectedVessel), old(selectedBody));
        && (outcome.NewBody? ==> selectedBody == Some(outcome.body) && selectedVessel == None)
        && (outcome.NewVessel? ==> selectedVessel == Some(outcome.vessel) && selectedBody == None)
        && (!outcome.NewBody? && !outcome.NewVessel? ==>
              selectedVessel == old(selectedVessel) && selectedBody == old(selectedBody))
        && selectionChangedEvents == old(selectionChangedEvents) + (if outcome.NewBody? || outcome.NewVessel? then 1 else 0)
        && selectedItemClickedEvents == old(selectedItemClickedEvents) + (if outcome == ReClicked then 1 else 0)
        && infoViewResets == old(infoViewResets) + (if outcome == Ignored || outcome == ReClicked then 0 else 1)
    {
      if !clicked || !inScrollArea {
        return;
      }
      if preSelectedVessel.Some? && SameVessel(preSelectedVessel, selectedVessel) {
        selectedItemClickedEvents := selectedItemClickedEvents + 1;
        return;
      }
      if preSelectedBody.Some? && preSelectedBody != selectedBody {
        SetSelectedBody(preSelectedBody);
        selectionChangedEvents := selectionChangedEvents + 1;
      } else if preSelectedVessel.Some? && !SameVessel(preSelectedVessel, selectedVessel) {
        SetSelectedVessel(preSelectedVessel);
        selectionChangedEvents := selectionChangedEvents + 1;
      }
      infoViewResets := infoViewResets + 1;
    }
  }
  /**
   * The loop of the body list in `Draw`, over the body selected before it:
   * the last clicked body that is not the selected one, and how many clicks
   * landed on the selected one.
   */
  method ScanBodyClicks(bodies: seq<Body>, clicks: set<nat>, selected: Option<Body>)
    returns (preSelectedBody: Option<Body>, reclicks: nat)
    ensures preSelectedBody == LastClickedNewBody(bodies, clicks, selected, |bodies|)
    ensures reclicks == SelectedBodyReclicks(bodies, clicks, selected, |bodies|)
  {
    preSelectedBody, reclicks := None, 0;
    var j := 0;
    while j < |bodies|
      invariant 0 <= j <= |bodies|
      invariant preSelectedBody == LastClickedNewBody(bodies, clicks, selected, j)
      invariant reclicks == SelectedBodyReclicks(bodies, clicks, selected, j)
    {
      var body := bodies[j];
      assert LastNewBodyClick(bodies, clicks, selected, j + 1) ==
        if j in clicks && Some(body) != selected then j else LastNewBodyClick(bodies, clicks, selected, j);
      assert SelectedBodyReclicks(bodies, clicks, selected, j + 1) ==
        SelectedBodyReclicks(bodies, clicks, selected, j) + if j in clicks && Some(body) == selected then 1 else 0;
      if j in clicks {
        if Some(body) == selected {
          reclicks := reclicks + 1;
          j := j + 1;
          continue;
        }
        preSelectedBody := Some(body);
      }
      j := j + 1;
    }
  }
}
