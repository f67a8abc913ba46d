/**
 * The container side of instance provisioning (docker-manager.js): the host
 * port allocator over `usedPorts`, the rollback of an allocation when the
 * container cannot be created, the resource table, and the release of a
 * container's port when it is removed. Every Docker Engine call (pull, create,
 * start, inspect, stop, remove, list) is replaced by its outcome, passed in
 * as a parameter.
 */
module Docker {
  import opened Wrappers
  import Text

  /** First host port handed out for a container's web (noVNC) endpoint. */
  const BasePort: int := 6080
  /** The VNC client port is bound this far above the web port. */
  const VncPortOffset: int := 1000

  const DefaultInstanceType: string := "24v64g"
  const ContainerNamePrefix: string := "vnc-instance-"
  const CreateFailedPrefix: string := "创建容器失败: "
  const RemoveFailedPrefix: string := "删除容器失败: "

  // ---------------------------------------------------------------------------
  // Port allocation
  // ---------------------------------------------------------------------------

  /** The lowest port at or above `from` that is not in `used`. */
  function LowestFreePort(used: set<int>, from: int): (port: int)
    ensures from <= port && port !in used
    ensures forall q :: from <= q < port ==> q in used
    decreases |used|
  {
    if from in used then
      var port := LowestFreePort(used - {from}, from + 1);
      assert forall q :: from <= q < port ==> q in used by {
        forall q | from < q < port ensures q in used {
          assert q in used - {from};
        }
      }
      port
    else
      from
  }

  /** The properties LowestFreePort promises determine the port uniquely. */
  lemma LowestFreePortUnique(used: set<int>, from: int, port: int)
    requires from <= port && port !in used
    requires forall q :: from <= q < port ==> q in used
    ensures port == LowestFreePort(used, from)
  {
  }

  /** A set holding every port of [lo, hi) has at least hi - lo elements. */
  lemma {:induction false} CoveredRangeSize(used: set<int>, lo: int, hi: int)
    requires lo <= hi
    requires forall q :: lo <= q < hi ==> q in used
    ensures hi - lo <= |used|
    decreases hi - lo
  {
    if lo < hi {
      CoveredRangeSize(used - {hi - 1}, lo, hi - 1);
    }
  }

  /**
   * Two allocations with no release in between hand out different ports, and
   * the second is above the first.
   */
  lemma SuccessiveAllocationsDiffer(used: set<int>)
    ensures var first := LowestFreePort(used, BasePort);
            first < LowestFreePort(used + {first}, BasePort)
  {
  }

  // ---------------------------------------------------------------------------
  // Resource table
  // ---------------------------------------------------------------------------

  datatype ResourceConfig = ResourceConfig(memory: int, cpuShares: int)

  /** Every advertised instance type gets the same real resources: 2 GiB and 1024 CPU shares. */
  const ResourceTable: map<string, ResourceConfig> := map[
    "2v2g" := ResourceConfig(2 * 1024 * 1024 * 1024, 1024),
    "4v4g" := ResourceConfig(2 * 1024 * 1024 * 1024, 1024),
    "16v16g" := ResourceConfig(2 * 1024 * 1024 * 1024, 1024),
    "24v64g" := ResourceConfig(2 * 1024 * 1024 * 1024, 1024)
  ]

  /** The table entry of an instance type, the default type's entry for any other name. */
  function GetResourceConfig(instanceType: string): ResourceConfig
  {
    if instanceType in ResourceTable then ResourceTable[instanceType] else ResourceTable[DefaultInstanceType]
  }

  /** Whatever the type asked for, the container gets 2 GiB of memory and 1024 CPU shares. */
  lemma ResourceConfigUniform(instanceType: string)
    ensures GetResourceConfig(instanceType) == ResourceConfig(2147483648, 1024)
  {
  }

  /**
   * The lookup exactly as written, `configs[instanceType] || configs['24v64g']`,
   * on a JavaScript object literal: a name the object inherits from
   * `Object.prototype` is found there, and what it holds is not a resource
   * configuration.
   */
  datatype PropertyLookup = Own(config: ResourceConfig) | Inherited(name: string)

  /** Names every plain object literal inherits from `Object.prototype`. */
  const InheritedNames: set<string> := {
    "constructor", "hasOwnProperty", "isPrototypeOf", "propertyIsEnumerable",
    "toLocaleString", "toString", "valueOf", "__proto__",
    "__defineGetter__", "__defineSetter__", "__lookupGetter__", "__lookupSetter__"
  }

  function GetResourceConfigAsWritten(instanceType: string): (found: PropertyLookup)
    ensures instanceType in ResourceTable ==> found == Own(GetResourceConfig(instanceType))
  {
    if instanceType in ResourceTable then Own(ResourceTable[instanceType])
    else if instanceType in InheritedNames then Inherited(instanceType)
    else Own(ResourceTable[DefaultInstanceType])
  }

  /**
   * The name "toString" is not a listed type, yet the lookup as written does
   * not fall back to the default entry: the container would get no memory limit.
   */
  lemma InheritedNameEscapesDefault()
    ensures "toString" !in ResourceTable
    ensures GetResourceConfigAsWritten("toString") != Own(GetResourceConfig("toString"))
  {
    assert "toString" in InheritedNames;
  }

  // ---------------------------------------------------------------------------
  // Outcomes of Docker Engine calls
  // ---------------------------------------------------------------------------

  /** Pulling the image, creating the container and starting it, taken together. */
  datatype LaunchOutcome = Launched(containerId: string) | LaunchFailed(message: string)

  /** What `inspect` reported about a container before removal. */
  datatype Inspection =
    | Missing                         // HTTP 404: nothing to remove
    | InspectFailed(message: string)  // any other error
    | Inspected(webHostPort: Option<int>)  // the host port bound to 80/tcp, if any

  /** Stopping (when running) and force-removing the container, taken together. */
  datatype Teardown = TornDown | TeardownMissing | TeardownFailed(message: string)

  datatype ContainerProbe = ContainerProbe(inspection: Inspection, teardown: Teardown)

  /** Whether `removeContainer` returns normally for this probe. */
  predicate RemovalSucceeds(probe: ContainerProbe) {
    match probe.inspection
    case Missing => true
    case InspectFailed(_) => false
    case Inspected(_) => !probe.teardown.TeardownFailed?
  }

  /** The port `removeContainer` releases for this probe, if any. */
  function ReleasedPort(probe: ContainerProbe): Option<int> {
    if probe.inspection.Inspected? then probe.inspection.webHostPort else None
  }

  /** The ports still in use after `removeContainer` ran on this probe. */
  function PortsAfterRemoval(used: set<int>, probe: ContainerProbe): (after: set<int>)
    ensures after <= used
    ensures !probe.inspection.Inspected? ==> after == used
    ensures ReleasedPort(probe).Some? ==> ReleasedPort(probe).value !in after
  {
    if ReleasedPort(probe).Some? then used - {ReleasedPort(probe).value} else used
  }

  /**
   * The ports still in use after `cleanupAllInstances` removed the listed
   * containers in order: every removal frees its container's port, the first
   * removal that throws ends the sweep, and a sweep that gets through them
   * all forgets every port.
   */
  function PortsAfterSweep(used: set<int>, probes: seq<ContainerProbe>): (after: set<int>)
    ensures after <= used
    ensures (forall i | 0 <= i < |probes| :: RemovalSucceeds(probes[i])) ==> after == {}
    decreases |probes|
  {
    if probes == [] then {}
    else
      var after := PortsAfterRemoval(used, probes[0]);
      if RemovalSucceeds(probes[0]) then
        assert forall i | 0 <= i < |probes| - 1 :: probes[1..][i] == probes[i + 1];
        PortsAfterSweep(after, probes[1..])
      else after
  }

  /**
   * A sweep that stops at a failing removal keeps every port that no listed
   * container was bound to.
   */
  lemma {:induction false} SweepFailureKeepsUnlistedPorts(used: set<int>, probes: seq<ContainerProbe>, p: int)
    requires exists i | 0 <= i < |probes| :: !RemovalSucceeds(probes[i])
    requires p in used
    requires forall i | 0 <= i < |probes| :: ReleasedPort(probes[i]) != Some(p)
    ensures p in PortsAfterSweep(used, probes)
    decreases |probes|
  {
    var after := PortsAfterRemoval(used, probes[0]);
    assert ReleasedPort(probes[0]) != Some(p);
    if RemovalSucceeds(probes[0]) {
      var k :| 0 <= k < |probes| && !RemovalSucceeds(probes[k]);
      assert !RemovalSucceeds(probes[1..][k - 1]);
      assert forall i | 0 <= i < |probes| - 1 :: probes[1..][i] == probes[i + 1];
      SweepFailureKeepsUnlistedPorts(after, probes[1..], p);
    }
  }

  /** What `waitForContainer` observed while polling the new container. */
  datatype ContainerWait =
    | Running                   // State.Running seen before the deadline
    | Exited(exitCode: int)     // State.Status became 'exited'
    | Vanished                  // HTTP 404
    | InspectError(message: string)
    | WaitTimedOut              // 60 s passed without either

  /** `waitForContainer`: true once running, otherwise the error it throws. */
  function WaitForContainer(wait: ContainerWait): (r: Result<bool, string>)
    ensures r.Success? <==> wait.Running?
    ensures r.Success? ==> r.value
  {
    match wait
    case Running => Success(true)
    case Exited(code) => Failure("容器启动失败，退出状态: " + Text.IntString(code))
    case Vanished => Failure("容器不存在")
    case InspectError(message) => Failure(message)
    case WaitTimedOut => Failure("容器启动超时")
  }

  datatype ContainerInfo = ContainerInfo(
    id: string, port: int, vncPort: int, name: string, instanceType: string)

  // ---------------------------------------------------------------------------
  // The manager and its port set
  // ---------------------------------------------------------------------------

  class DockerManager {
    /** Host web ports currently handed out. */
    var usedPorts: set<int>

    /** A fresh manager has no port in use. */
    constructor ()
      ensures usedPorts == {}
    {
      usedPorts := {};
    }

    /** Scan upward from BasePort for the first port not in use and mark it used. */
    method GetAvailablePort() returns (port: int)
      modifies this
      ensures port == LowestFreePort(old(usedPorts), BasePort)
      ensures port !in old(usedPorts)
      ensures usedPorts == old(usedPorts) + {port}
    {
      port := BasePort;
      while port in usedPorts
        invariant usedPorts == old(usedPorts)
        invariant BasePort <= port
        invariant forall q :: BasePort <= q < port ==> q in usedPorts
        decreases |usedPorts| - (port - BasePort)
      {
        CoveredRangeSize(usedPorts, BasePort, port + 1);
        port := port + 1;
      }
      LowestFreePortUnique(usedPorts, BasePort, port);
      usedPorts := usedPorts + {port};
    }

    /** Unmark a port; a port not in use is left alone. */
    method ReleasePort(port: int)
      modifies this
      ensures usedPorts == old(usedPorts) - {port}
      ensures port !in old(usedPorts) ==> usedPorts == old(usedPorts)
    {
      usedPorts := usedPorts - {port};
    }

    /**
     * Allocate a web port, then launch the container with the web port bound
     * to 80/tcp and web port + 1000 bound to 5900/tcp. If the launch throws,
     * the port is released again and the set of used ports is as before.
     */
    method CreateVNCContainer(instanceId: string, instanceType: string, launch: LaunchOutcome)
      returns (r: Result<ContainerInfo, string>)
      modifies this
      ensures r.Success? <==> launch.Launched?
      ensures r.Success? ==>
        && r.value.port == LowestFreePort(old(usedPorts), BasePort)
        && r.value.vncPort == r.value.port + VncPortOffset
        && r.value.id == launch.containerId
        && r.value.name == ContainerNamePrefix + instanceId
        && r.value.instanceType == instanceType
        && usedPorts == old(usedPorts) + {r.value.port}
      ensures r.Failure? ==>
        && r.error == CreateFailedPrefix + launch.message
        && usedPorts == old(usedPorts)
    {
      var port := GetAvailablePort();
      var vncPort := port + VncPortOffset;
      // The memory and CPU shares of the launch are fixed by ResourceConfigUniform;
      // the launch itself is the `launch` outcome.
      match launch
      case Launched(containerId) =>
        r := Success(ContainerInfo(containerId, port, vncPort, ContainerNamePrefix + instanceId, instanceType));
      case LaunchFailed(message) =>
        ReleasePort(port);
        r := Failure(CreateFailedPrefix + message);
    }

    /**
     * Remove a container. A container Docker does not know (404) counts as
     * removed. Otherwise the host port bound to 80/tcp is released first, and
     * only then is the container stopped and removed, so a failing teardown
     * still leaves that port released.
     */
    method RemoveContainer(probe: ContainerProbe) returns (r: Result<(), string>)
      modifies this
      ensures r.Success? <==> RemovalSucceeds(probe)
      ensures usedPorts == PortsAfterRemoval(old(usedPorts), probe)
      ensures r.Failure? && probe.inspection.InspectFailed? ==> r.error == RemoveFailedPrefix + probe.inspection.message
      ensures r.Failure? && probe.inspection.Inspected? ==> r.error == RemoveFailedPrefix + probe.teardown.message
    {
      match probe.inspection
      case Missing =>
        r := Success(());
      case InspectFailed(message) =>
        r := Failure(RemoveFailedPrefix + message);
      case Inspected(webHostPort) =>
        if webHostPort.Some? {
          ReleasePort(webHostPort.value);
        }
        match probe.teardown
        case TeardownFailed(message) =>
          r := Failure(RemoveFailedPrefix + message);
        case _ =>
          r := Success(());
    }

    /**
     * Startup sweep: remove every labelled container left from an earlier run
     * (errors on single containers are logged and skipped) and forget all
     * ports; when the listing itself fails nothing is reset.
     */
    method InitializePortUsage(listingSucceeded: bool)
      modifies this
      ensures usedPorts == if listingSucceeded then {} else old(usedPorts)
    {
      if listingSucceeded {
        usedPorts := {};
      }
    }

    /**
     * Remove every labelled container in listing order, then forget all
     * ports. The first removal that throws ends the sweep (the error is
     * logged), so the reset is skipped; when the listing fails nothing happens.
     */
    method CleanupAllInstances(listing: Option<seq<ContainerProbe>>)
      modifies this
      ensures usedPorts == if listing.Some? then PortsAfterSweep(old(usedPorts), listing.value) else old(usedPorts)
    {
      if listing.None? {
        return;
      }
      var probes := listing.value;
      var i := 0;
      while i < |probes|
        invariant 0 <= i <= |probes|
        invariant PortsAfterSweep(usedPorts, probes[i..]) == PortsAfterSweep(old(usedPorts), probes)
      {
        assert probes[i..][1..] == probes[i + 1..];
        var removed := RemoveContainer(probes[i]);
        if removed.Failure? {
          return;
        }
        i := i + 1;
      }
      usedPorts := {};
    }
  }
}
