/**
 * `DockingPortListView`: for the vessel shown in the info panel, the list of
 * its free docking ports, each with a display name, sorted by that name.
 */
module DockingPorts {
  import opened Wrappers
  import opened Text
  import opened Sorting
  import opened Game

  /** A `PortInfo` entry of the list. */
  datatype PortInfo = PortInfo(name: string, portNode: DockingPort)

  /** `attachNodes.Count(node => node.attachedPart != null)`. */
  function UsedNodeCount(attachNodes: seq<bool>): (r: nat)
    ensures r <= |attachNodes|
  {
    if attachNodes == [] then 0
    else UsedNodeCount(attachNodes[..|attachNodes| - 1]) + if attachNodes[|attachNodes| - 1] then 1 else 0
  }

  /** All attach nodes are occupied exactly when the used count reaches the node count; true for a part with none. */
  lemma {:induction false} AllNodesUsedIff(attachNodes: seq<bool>)
    ensures UsedNodeCount(attachNodes) == |attachNodes| <==> forall i :: 0 <= i < |attachNodes| ==> attachNodes[i]
  {
    if attachNodes != [] {
      var init := attachNodes[..|attachNodes| - 1];
      AllNodesUsedIff(init);
      assert forall i :: 0 <= i < |init| ==> init[i] == attachNodes[i];
    }
  }

  /** The guards of the loop in `populatePortList`: a docking node, not docked, with a free attach node. */
  predicate Listed(t: Targetable) {
    && t.DockingNode?
    && !StartsWithIgnoreCase(t.port.state, "Docked")
    && UsedNodeCount(t.port.attachNodes) != |t.port.attachNodes|
  }

  /** A port whose part has no attach nodes is never listed. */
  lemma NoAttachNodesNotListed(t: Targetable)
    requires t.DockingNode? && t.port.attachNodes == []
    ensures !Listed(t)
  {
  }

  /** A listed port is one with an attach node left free. */
  lemma ListedHasFreeNode(t: Targetable)
    requires Listed(t)
    ensures exists i :: 0 <= i < |t.port.attachNodes| && !t.port.attachNodes[i]
  {
    AllNodesUsedIff(t.port.attachNodes);
  }

  /** The first `ModuleDockingNodeNamed` among the part's modules, and its `portName`. */
  function FirstNamedModule(modules: seq<PartModule>): (r: Option<string>)
    ensures r.None? <==> forall i :: 0 <= i < |modules| ==> !modules[i].NamedDockingNodeModule?
    ensures r.Some? ==> exists i :: (0 <= i < |modules| && modules[i] == NamedDockingNodeModule(r.value) &&
      forall j :: 0 <= j < i ==> !modules[j].NamedDockingNodeModule?)
  {
    if modules == [] then None
    else if modules[0].NamedDockingNodeModule? then Some(modules[0].portName)
    else
      var r := FirstNamedModule(modules[1..]);
      assert forall i :: 1 <= i < |modules| ==> modules[i] == modules[1..][i - 1];
      r
  }

  /** What `getPortName` returns. */
  function PortName(port: DockingPort, namedSupport: bool): string {
    if !namedSupport then Trim(port.title)
    else match FirstNamedModule(port.modules)
      case None => port.title
      case Some(name) => name
  }

  /** The three outcomes of `getPortName`. */
  lemma PortNameCases(port: DockingPort, namedSupport: bool)
    ensures !namedSupport ==> PortName(port, namedSupport) == Trim(port.title)
    ensures namedSupport && (forall i :: 0 <= i < |port.modules| ==> !port.modules[i].NamedDockingNodeModule?) ==>
      PortName(port, namedSupport) == port.title
    ensures forall i :: (0 <= i < |port.modules| && port.modules[i].NamedDockingNodeModule? &&
                         (forall j :: 0 <= j < i ==> !port.modules[j].NamedDockingNodeModule?)) ==>
      (namedSupport ==> PortName(port, namedSupport) == port.modules[i].portName)
  {
    forall i | 0 <= i < |port.modules| && port.modules[i].NamedDockingNodeModule? &&
      (forall j :: 0 <= j < i ==> !port.modules[j].NamedDockingNodeModule?)
      ensures namedSupport ==> PortName(port, namedSupport) == port.modules[i].portName
    {
      FirstNamedAt(port.modules, i);
    }
  }

  /** The entries `populatePortList` appends, in targetable order, before sorting. */
  function PortEntries(targetables: seq<Targetable>, namedSupport: bool): seq<PortInfo> {
    if targetables == [] then []
    else
      var init := targetables[..|targetables| - 1];
      var t := targetables[|targetables| - 1];
      PortEntries(init, namedSupport) + if Listed(t) then [PortInfo(PortName(t.port, namedSupport), t.port)] else []
  }

  /** An entry is listed exactly when its targetable passes the guards; it carries the port and its name. */
  lemma {:induction false} PortEntriesSpec(targetables: seq<Targetable>, namedSupport: bool)
    ensures |PortEntries(targetables, namedSupport)| <= |targetables|
    ensures forall e :: e in PortEntries(targetables, namedSupport) <==>
      exists i :: 0 <= i < |targetables| && Listed(targetables[i]) &&
        e == PortInfo(PortName(targetables[i].port, namedSupport), targetables[i].port)
  {
    if targetables != [] {
      var init := targetables[..|targetables| - 1];
      PortEntriesSpec(init, namedSupport);
      assert forall i :: 0 <= i < |init| ==> init[i] == targetables[i];
    }
  }

  /** The `Comparison<PortInfo>` given to `Sort`: by `Name`, with the string order a parameter. */
  function ByName(nameLe: (string, string) -> bool): (PortInfo, PortInfo) -> bool {
    (a: PortInfo, b: PortInfo) => nameLe(a.name, b.name)
  }

  lemma ByNameTotalPreorder(nameLe: (string, string) -> bool)
    requires TotalPreorder(nameLe)
    ensures TotalPreorder(ByName(nameLe))
  {
    var le := ByName(nameLe);
    forall a: PortInfo, b: PortInfo ensures le(a, b) || le(b, a) {
      assert nameLe(a.name, b.name) || nameLe(b.name, a.name);
    }
    forall a: PortInfo, b: PortInfo, c: PortInfo | le(a, b) && le(b, c) ensures le(a, c) {
      assert nameLe(a.name, b.name) && nameLe(b.name, c.name);
    }
  }

  class DockingPortListView {
    var currentVessel: Option<Vessel>
    var portList: seq<PortInfo>
    var runUpdate: bool
    /** Times `updatePortListCoroutine` was started. */
    var coroutineStarts: nat
    /** Whether the named-docking-port mod was found when the class was loaded. */
    const namedDockingPortSupport: bool

    constructor (namedSupport: bool)
      ensures currentVessel == None && portList == [] && !runUpdate && coroutineStarts == 0
      ensures namedDockingPortSupport == namedSupport
    {
      currentVessel, portList, runUpdate, coroutineStarts := None, [], false, 0;
      namedDockingPortSupport := namedSupport;
    }

    /**
     * The `CurrentVessel` setter and `handleVesselChange`: a null vessel (a
     * destroyed one compares equal to null) empties the list and stops updates;
     * any other vessel starts the update coroutine.
     */
    method SetCurrentVessel(value: Option<Vessel>)
      modifies this`currentVessel, this`portList, this`runUpdate, this`coroutineStarts
      ensures currentVessel == value
      ensures (value.None? || value.value.destroyed) ==>
        portList == [] && !runUpdate && coroutineStarts == old(coroutineStarts)
      ensures !(value.None? || value.value.destroyed) ==>
        portList == old(portList) && runUpdate && coroutineStarts == old(coroutineStarts) + 1
    {
      currentVessel := value;
      if value.None? || value.value.destroyed {
        portList := [];
        runUpdate := false;
        return;
      }
      runUpdate := true;
      coroutineStarts := coroutineStarts + 1;
    }

    /** `getPortName`: the index loop that stops at the first named module. */
    method GetPortName(port: DockingPort) returns (name: string)
      ensures name == PortName(port, namedDockingPortSupport)
    {
      if !namedDockingPortSupport {
        return Trim(port.title);
      }
      var found: Option<string> := None;
      var i := 0;
      while i < |port.modules|
        invariant 0 <= i <= |port.modules|
        invariant found.None? ==> forall j :: 0 <= j < i ==> !port.modules[j].NamedDockingNodeModule?
        invariant found.Some? ==> found == FirstNamedModule(port.modules)
      {
        var m := port.modules[i];
        if m.NamedDockingNodeModule? {
          found := Some(m.portName);
          FirstNamedAt(port.modules, i);
          break;
        }
        i := i + 1;
      }
      if found.None? {
        return port.title;
      }
      name := found.value;
    }

    /**
     * `populatePortList`: clears the list, appends an entry for each listed port,
     * then sorts the list by name.
     */
    method PopulatePortList(nameLe: (string, string) -> bool)
      requires currentVessel.Some?
      requires TotalPreorder(nameLe)
      modifies this`portList
      ensures multiset(portList) == multiset(PortEntries(currentVessel.value.targetables, namedDockingPortSupport))
      ensures SortedBy(portList, ByName(nameLe))
    {
      portList := [];
      var targetables := currentVessel.value.targetables;
      var i := 0;
      while i < |targetables|
        invariant 0 <= i <= |targetables|
        invariant portList == PortEntries(targetables[..i], namedDockingPortSupport)
      {
        var targetable := targetables[i];
        assert targetables[..i + 1][..i] == targetables[..i];
        if !targetable.DockingNode? {
          i := i + 1;
          continue;
        }
        var port := targetable.port;
        if StartsWithIgnoreCase(port.state, "Docked") {
          i := i + 1;
          continue;
        }
        var usedNodeCount := UsedNodeCount(port.attachNodes);
        if usedNodeCount == |port.attachNodes| {
          i := i + 1;
          continue;
        }
        var name := GetPortName(port);
        portList := portList + [PortInfo(name, port)];
        i := i + 1;
      }
      assert targetables[..i] == targetables;
      ByNameTotalPreorder(nameLe);
      portList := SortBy(portList, ByName(nameLe));
    }
  }

  /** A named module at `i` with none before it is the one `FirstNamedModule` finds. */
  lemma {:induction false} FirstNamedAt(modules: seq<PartModule>, i: nat)
    requires i < |modules| && modules[i].NamedDockingNodeModule?
    requires forall j :: 0 <= j < i ==> !modules[j].NamedDockingNodeModule?
    ensures FirstNamedModule(modules) == Some(modules[i].portName)
  {
    if i > 0 {
      FirstNamedAt(modules[1..], i - 1);
    }
  }
}
