/**
 * The game objects the core reads, reduced to the fields its rules use, and the
 * game-wide state (`FlightGlobals`, `Resources`, the hidden-vessel set) that the
 * source reads from globals and the model receives as a value.
 */
module Game {
  import opened Wrappers

  /** `Vessel.id`, a `Guid`; distinct vessels have distinct ids. */
  type VesselId = nat

  /** `CelestialBody`, known by its `bodyName`. */
  datatype Body = Body(bodyName: string)

  /** A module of a part, as far as `getPortName` distinguishes them: the named-docking-node module with its `portName`, or any other. */
  datatype PartModule = NamedDockingNodeModule(portName: string) | OtherModule

  /**
   * `ModuleDockingNode` with the fields of its part that the port list reads:
   * `state`, the occupancy of each attach node (`attachedPart != null`),
   * `partInfo.title` and the part's modules.
   */
  datatype DockingPort = DockingPort(state: string, attachNodes: seq<bool>, title: string, modules: seq<PartModule>)

  /** A part module implementing `ITargetable`: a docking node or something else. */
  datatype Targetable = DockingNode(port: DockingPort) | OtherTargetable

  /**
   * `Vessel`: its id, `vesselType.ToString()`, `vesselName` (may be null),
   * `orbit.referenceBody`, and the targetable part modules it implements.
   * `destroyed` is a vessel the game has destroyed: Unity's overloaded
   * equality then reports it as null although its fields remain readable.
   */
  datatype Vessel = Vessel(
    id: VesselId,
    vesselType: string,
    vesselName: Option<string>,
    referenceBody: Body,
    destroyed: bool,
    targetables: seq<Targetable>)

  /**
   * Reference equality of two vessel references: both null, or the same vessel.
   * The source compares `Vessel` objects by reference, and a vessel stays the
   * same object while its name, orbit or parts change, so identity is its id.
   */
  predicate SameVessel(a: Option<Vessel>, b: Option<Vessel>) {
    match (a, b)
    case (None, None) => true
    case (Some(v), Some(w)) => v.id == w.id
    case _ => false
  }

  /** `HSVesselType`: a type name and whether vessels of that type are shown. */
  datatype VesselType = VesselType(name: string, visible: bool)

  /**
   * The game state the core reads: `HSUtils.IsInFlight`, `FlightGlobals.ActiveVessel`,
   * `FlightGlobals.Vessels` (may be null), `Resources.CelestialBodies`,
   * `Resources.vesselTypesList` (may be null) and the ids of the hidden vessels.
   */
  datatype GameState = GameState(
    inFlight: bool,
    activeVessel: Option<Vessel>,
    vessels: Option<seq<Vessel>>,
    celestialBodies: seq<Body>,
    vesselTypes: Option<seq<VesselType>>,
    hiddenVessels: set<VesselId>)
  {
    /** In flight the game always has an active vessel; the core dereferences it unguarded. */
    predicate Wellformed() {
      inFlight ==> activeVessel.Some?
    }

    /** The body the active vessel orbits, in flight. */
    function LocalBody(): Body
      requires Wellformed() && inFlight
    {
      activeVessel.value.referenceBody
    }
  }
}
