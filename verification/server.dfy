/**
 * The instance service of server.js: one instance record per user, the
 * provisioning sequence container -> tunnel -> readiness, a ten-minute idle
 * timer per user that polls and heartbeats re-arm, and cleanup. Each HTTP
 * handler and the whole of provisioning run as one atomic step; the outcomes
 * of the Docker Engine, of cloudflared and of the clock are parameters.
 */
module Server {
  import opened Wrappers
  import Text
  import Docker
  import Tunnel

  /** Ten minutes, in milliseconds. */
  const IdleTimeoutMs: int := 10 * 60 * 1000

  const InstanceIdPrefix: string := "VNC-"
  const AlreadyAppliedError: string := "您已经申请过实例，每个用户只能申请一次"
  const InstanceNotFoundError: string := "实例不存在"

  datatype Status = Creating | CreatingContainer | CreatingTunnel | Starting | Ready | Error

  /** A user's instance record; the `null` fields of the source are `None`. */
  datatype Instance = Instance(
    instanceId: string,
    userId: string,
    status: Status,
    createdAt: string,
    containerId: Option<string>,
    port: Option<int>,
    tunnelId: Option<string>,
    vncUrl: Option<string>,
    error: Option<string>)

  /** A pending `setTimeout` with its deadline, or one that has already run. */
  datatype Timer = Armed(deadline: int) | Fired

  /** The fields a record has at each status: provisioning fills them in before moving on. */
  predicate WellFormed(inst: Instance) {
    && (inst.status == Creating ==>
          inst.containerId.None? && inst.port.None? && inst.tunnelId.None? && inst.vncUrl.None? && inst.error.None?)
    && (inst.status in {CreatingTunnel, Starting, Ready} ==> inst.containerId.Some? && inst.port.Some?)
    && (inst.status in {Starting, Ready} ==> inst.tunnelId.Some? && inst.vncUrl.Some?)
    && (inst.status == Error ==> inst.error.Some?)
  }

  /** `VNC-` followed by the last six digits of the millisecond clock. */
  function InstanceIdAt(nowMs: nat): (id: string)
    ensures Text.StartsWith(id, InstanceIdPrefix)
    ensures |InstanceIdPrefix| < |id| <= |InstanceIdPrefix| + 6
    ensures Text.AllDigits(id[|InstanceIdPrefix|..])
    ensures nowMs < 1000000 ==> id == InstanceIdPrefix + Text.Decimal(nowMs)
    ensures nowMs >= 1000000 ==> |id| == |InstanceIdPrefix| + 6
    ensures Text.DigitsValue(id[|InstanceIdPrefix|..]) == nowMs % 1000000
  {
    var tail := Text.LastDigits(nowMs, 6);
    assert (InstanceIdPrefix + tail)[|InstanceIdPrefix|..] == tail;
    assert Text.Pow10(6) == 1000000;
    InstanceIdPrefix + tail
  }

  // ---------------------------------------------------------------------------
  // Provisioning, as a function of what the backends did
  // ---------------------------------------------------------------------------

  /**
   * What each backend call of `createInstanceAsync` and of the cleanup after it
   * did, and the time (ISO-8601) at which the tunnel entry is made.
   */
  datatype Backend = Backend(
    launch: Docker.LaunchOutcome,
    tunnelCheck: Tunnel.VersionCheck,
    tunnelEvents: seq<Tunnel.TunnelEvent>,
    readiness: seq<Tunnel.ReadinessAttempt>,
    containerWait: Docker.ContainerWait,
    removal: Docker.ContainerProbe,
    tunnelCreatedAt: string)

  predicate TunnelSucceeds(b: Backend) {
    b.tunnelCheck.Available? && Tunnel.Settle(b.tunnelEvents, "", "").Resolved?
  }

  /** Every step of provisioning succeeds: the launch, the tunnel and the wait for the container. */
  predicate ProvisioningSucceeds(b: Backend) {
    b.launch.Launched? && TunnelSucceeds(b) && b.containerWait.Running?
  }

  /** The message of the first step that throws, if any. */
  function ProvisioningFailure(b: Backend): Option<string> {
    if b.launch.LaunchFailed? then Some(Docker.CreateFailedPrefix + b.launch.message)
    else if !TunnelSucceeds(b) then
      Some(Tunnel.CreateFailedPrefix + Tunnel.CreateTunnelError(b.tunnelCheck, b.tunnelEvents))
    else if !b.containerWait.Running? then Some(Docker.WaitForContainer(b.containerWait).error)
    else None
  }

  /** The statuses a successful provisioning goes through, in order. */
  const Progression: seq<Status> := [CreatingContainer, CreatingTunnel, Starting, Ready]

  /**
   * A prefix of the progression that either completes, or stops after at
   * least one step and ends in Error.
   */
  predicate FollowsLifecycle(trace: seq<Status>) {
    || trace == Progression
    || (&& 2 <= |trace| <= |Progression|
        && trace[..|trace| - 1] == Progression[..|trace| - 1]
        && trace[|trace| - 1] == Error)
  }

  /** The statuses provisioning assigns for these backend outcomes. */
  function ProvisioningTrace(b: Backend): seq<Status> {
    if b.launch.LaunchFailed? then [CreatingContainer, Error]
    else if !TunnelSucceeds(b) then [CreatingContainer, CreatingTunnel, Error]
    else if !b.containerWait.Running? then [CreatingContainer, CreatingTunnel, Starting, Error]
    else Progression
  }

  /**
   * The record at the end of provisioning, before any cleanup: the fields of
   * each step that succeeded are filled in, and the final status is Ready or
   * Error with the message of the step that threw.
   */
  function Provisioned(inst: Instance, instanceId: string, port: int, b: Backend): (r: Instance)
    ensures WellFormed(r)
    ensures r.instanceId == inst.instanceId && r.userId == inst.userId && r.createdAt == inst.createdAt
  {
    match b.launch
    case LaunchFailed(message) =>
      inst.(status := Error, error := ProvisioningFailure(b))
    case Launched(containerId) =>
      var withContainer := inst.(containerId := Some(containerId), port := Some(port));
      if !TunnelSucceeds(b) then
        withContainer.(status := Error, error := ProvisioningFailure(b))
      else
        var withTunnel := withContainer.(tunnelId := Some(Tunnel.TunnelIdOf(instanceId)),
                                         vncUrl := Some(Tunnel.Settle(b.tunnelEvents, "", "").url));
        if b.containerWait.Running? then withTunnel.(status := Ready)
        else withTunnel.(status := Error, error := ProvisioningFailure(b))
  }

  /**
   * Provisioning fails exactly when the container launch fails, the tunnel
   * does not come up, or the container is not running; a failed launch
   * reports Docker's message.
   */
  lemma ProvisioningFailureCases(b: Backend)
    ensures ProvisioningFailure(b).None? <==> ProvisioningSucceeds(b)
    ensures b.launch.LaunchFailed? ==> ProvisioningFailure(b) == Some(Docker.CreateFailedPrefix + b.launch.message)
  {
  }

  /** The statuses follow the lifecycle, ending in Ready exactly when nothing failed, and otherwise in Error. */
  lemma ProvisioningTraceFollowsLifecycle(b: Backend)
    ensures FollowsLifecycle(ProvisioningTrace(b))
    ensures var trace := ProvisioningTrace(b);
            && (trace[|trace| - 1] == Ready <==> ProvisioningFailure(b).None?)
            && (trace[|trace| - 1] != Ready ==> trace[|trace| - 1] == Error)
  {
  }

  /**
   * The record after provisioning is Ready when nothing failed, otherwise
   * Error with the failing step's message, and the container and tunnel
   * fields of each step that succeeded are filled in.
   */
  lemma ProvisionedRecord(inst: Instance, instanceId: string, port: int, b: Backend)
    ensures var r := Provisioned(inst, instanceId, port, b);
            && r.status == (if ProvisioningFailure(b).None? then Ready else Error)
            && r.error == (if ProvisioningFailure(b).Some? then ProvisioningFailure(b) else inst.error)
            && (b.launch.Launched? ==> r.containerId == Some(b.launch.containerId) && r.port == Some(port))
            && (b.launch.Launched? && TunnelSucceeds(b) ==>
                  && r.tunnelId == Some(Tunnel.TunnelIdOf(instanceId))
                  && r.vncUrl == Some(Tunnel.Settle(b.tunnelEvents, "", "").url))
  {
  }

  /** The registry entry the tunnel step of provisioning files. */
  function ProvisionedTunnel(instanceId: string, port: int, b: Backend): Tunnel.TunnelRecord
    requires TunnelSucceeds(b)
  {
    Tunnel.TunnelRecord(Tunnel.TunnelIdOf(instanceId), instanceId, port, Tunnel.Settle(b.tunnelEvents, "", "").url,
                        b.tunnelCreatedAt)
  }

  /**
   * The tunnel registry once provisioning and the cleanup after a failure
   * have run: the tunnel step files `vnc-<instanceId>` when it succeeds, and
   * a cleanup whose container removal succeeds closes the record's tunnel.
   */
  function TunnelsAfterProvisioning(tunnels: map<string, Tunnel.TunnelRecord>, inst: Instance, instanceId: string,
                                    port: int, b: Backend): map<string, Tunnel.TunnelRecord>
  {
    var registered := if b.launch.Launched? && TunnelSucceeds(b)
                      then tunnels[Tunnel.TunnelIdOf(instanceId) := ProvisionedTunnel(instanceId, port, b)]
                      else tunnels;
    var record := Provisioned(inst, instanceId, port, b);
    if !ProvisioningSucceeds(b) && Docker.RemovalSucceeds(b.removal) && record.tunnelId.Some?
    then registered - {record.tunnelId.value}
    else registered
  }

  /**
   * For a fresh record: a successful provisioning adds exactly its tunnel;
   * a failed one whose cleanup removes the container leaves the registry as
   * it was; and when that removal throws, the tunnel stays registered
   * exactly when the tunnel step had succeeded.
   */
  lemma ProvisioningTunnelOutcome(tunnels: map<string, Tunnel.TunnelRecord>, inst: Instance, instanceId: string,
                                  port: int, b: Backend)
    requires inst.tunnelId.None? && Tunnel.TunnelIdOf(instanceId) !in tunnels
    ensures var after := TunnelsAfterProvisioning(tunnels, inst, instanceId, port, b);
            && (ProvisioningSucceeds(b) ==>
                  after == tunnels[Tunnel.TunnelIdOf(instanceId) := ProvisionedTunnel(instanceId, port, b)])
            && (!ProvisioningSucceeds(b) && Docker.RemovalSucceeds(b.removal) ==> after == tunnels)
            && (!ProvisioningSucceeds(b) && !Docker.RemovalSucceeds(b.removal) ==>
                  (Tunnel.TunnelIdOf(instanceId) in after <==> b.launch.Launched? && TunnelSucceeds(b)))
  {
  }

  /** When the container launch throws, provisioning stops at once and the cleanup sees the record as it was. */
  lemma LaunchFailureOutcome(tunnels: map<string, Tunnel.TunnelRecord>, inst: Instance, instanceId: string,
                             port: int, b: Backend)
    requires b.launch.LaunchFailed?
    ensures ProvisioningTrace(b) == [CreatingContainer, Error]
    ensures Provisioned(inst, instanceId, port, b) ==
              inst.(status := Error, error := Some(Docker.CreateFailedPrefix + b.launch.message))
    ensures TunnelsAfterProvisioning(tunnels, inst, instanceId, port, b) ==
              if Docker.RemovalSucceeds(b.removal) && inst.tunnelId.Some? then tunnels - {inst.tunnelId.value}
              else tunnels
  {
  }

  /** Once the container exists, the rest of provisioning depends on the record only through its other fields. */
  lemma LaunchedOutcome(tunnels: map<string, Tunnel.TunnelRecord>, inst: Instance, withContainer: Instance,
                        instanceId: string, port: int, b: Backend)
    requires b.launch.Launched?
    requires withContainer == inst.(status := CreatingContainer, containerId := Some(b.launch.containerId), port := Some(port))
    ensures ProvisioningTrace(b) == [CreatingContainer] + ProvisioningTrace(b)[1..]
    ensures Provisioned(withContainer, instanceId, port, b) == Provisioned(inst, instanceId, port, b)
    ensures TunnelsAfterProvisioning(tunnels, withContainer, instanceId, port, b) ==
              TunnelsAfterProvisioning(tunnels, inst, instanceId, port, b)
  {
  }

  /** When the tunnel does not come up, provisioning stops there and the cleanup sees the record's own tunnel. */
  lemma TunnelFailureOutcome(tunnels: map<string, Tunnel.TunnelRecord>, inst: Instance, instanceId: string,
                             port: int, b: Backend)
    requires b.launch.Launched? && !TunnelSucceeds(b)
    requires inst.containerId == Some(b.launch.containerId) && inst.port == Some(port)
    ensures ProvisioningTrace(b)[1..] == [CreatingTunnel, Error]
    ensures Provisioned(inst, instanceId, port, b) ==
              inst.(status := Error, error := Some(Tunnel.CreateFailedPrefix + Tunnel.CreateTunnelError(b.tunnelCheck, b.tunnelEvents)))
    ensures TunnelsAfterProvisioning(tunnels, inst, instanceId, port, b) ==
              if Docker.RemovalSucceeds(b.removal) && inst.tunnelId.Some? then tunnels - {inst.tunnelId.value}
              else tunnels
  {
  }

  /** Once the tunnel is up, the container wait alone decides between Ready and a cleanup that closes that tunnel. */
  lemma TunnelUpOutcome(tunnels: map<string, Tunnel.TunnelRecord>, inst: Instance, withTunnel: Instance,
                        instanceId: string, port: int, b: Backend)
    requires b.launch.Launched? && TunnelSucceeds(b)
    requires inst.containerId == Some(b.launch.containerId) && inst.port == Some(port)
    requires withTunnel == inst.(status := CreatingTunnel, tunnelId := Some(Tunnel.TunnelIdOf(instanceId)),
                                 vncUrl := Some(Tunnel.Settle(b.tunnelEvents, "", "").url))
    ensures ProvisioningTrace(b)[1..] ==
              [CreatingTunnel] + (if b.containerWait.Running? then [Starting, Ready] else [Starting, Error])
    ensures Provisioned(inst, instanceId, port, b) ==
              if b.containerWait.Running? then withTunnel.(status := Ready)
              else withTunnel.(status := Error, error := Some(Docker.WaitForContainer(b.containerWait).error))
    ensures var registered := tunnels[Tunnel.TunnelIdOf(instanceId) := ProvisionedTunnel(instanceId, port, b)];
            TunnelsAfterProvisioning(tunnels, inst, instanceId, port, b) ==
              if !b.containerWait.Running? && Docker.RemovalSucceeds(b.removal)
              then registered - {Tunnel.TunnelIdOf(instanceId)}
              else registered
  {
  }

  /** Records are filed under their own user, and only users with a record have a timer. */
  ghost predicate Consistent(instances: map<string, Instance>, timers: map<string, Timer>) {
    && (forall u | u in instances :: instances[u].userId == u && WellFormed(instances[u]))
    && timers.Keys <= instances.Keys
  }

  /** Filing a well-formed record under its own user keeps the table consistent. */
  lemma ConsistentUpdate(instances: map<string, Instance>, timers: map<string, Timer>, userId: string, inst: Instance)
    requires Consistent(instances, timers)
    requires inst.userId == userId && WellFormed(inst)
    ensures Consistent(instances[userId := inst], timers)
  {
  }

  /** What the status endpoint returns about an instance. */
  datatype InstanceView = InstanceView(
    instanceId: string, status: Status, vncUrl: Option<string>, error: Option<string>, createdAt: string)

  /** What the user-status endpoint returns about an instance. */
  datatype UserInstanceView = UserInstanceView(
    instanceId: string, vncUrl: Option<string>, status: Status, createdAt: string)

  class InstanceServer {
    /** The record of each user who has one. */
    var userInstances: map<string, Instance>
    /** Each user's idle timer. */
    var instanceTimers: map<string, Timer>
    /** Every status assigned to a record, in order; records are only written through `Record`. */
    ghost var statusLog: seq<Status>
    const docker: Docker.DockerManager
    const tunnelManager: Tunnel.TunnelManager

    /** Records are filed under their own user, and only users with a record have a timer. */
    ghost predicate Valid()
      reads this
    {
      Consistent(userInstances, instanceTimers)
    }

    constructor ()
      ensures Valid()
      ensures userInstances == map[] && instanceTimers == map[] && statusLog == []
      ensures fresh(docker) && docker.usedPorts == {}
      ensures fresh(tunnelManager) && tunnelManager.tunnels == map[]
    {
      userInstances := map[];
      instanceTimers := map[];
      statusLog := [];
      docker := new Docker.DockerManager();
      tunnelManager := new Tunnel.TunnelManager();
    }

    /** Whether the user has a record; with consistent tables, whether some record belongs to the user. */
    predicate HasUserInstance(userId: string)
      reads this
      ensures Valid() ==>
                (HasUserInstance(userId) <==> exists inst | inst in userInstances.Values :: inst.userId == userId)
    {
      assert userId in userInstances ==> userInstances[userId] in userInstances.Values;
      userId in userInstances
    }

    /** File `inst` as the user's record, logging the status it assigns. */
    method Record(userId: string, inst: Instance)
      requires Valid() && inst.userId == userId && WellFormed(inst)
      modifies this
      ensures Valid()
      ensures userInstances == old(userInstances)[userId := inst]
      ensures instanceTimers == old(instanceTimers)
      ensures statusLog == old(statusLog) + [inst.status]
    {
      ConsistentUpdate(userInstances, instanceTimers, userId, inst);
      userInstances := userInstances[userId := inst];
      statusLog := statusLog + [inst.status];
    }

    /** Cancel the user's timer, if any, and arm a new one due ten minutes from `now`. */
    method SetIdleTimer(userId: string, now: int)
      modifies this
      ensures instanceTimers == old(instanceTimers)[userId := Armed(now + IdleTimeoutMs)]
      ensures userInstances == old(userInstances) && statusLog == old(statusLog)
    {
      instanceTimers := instanceTimers[userId := Armed(now + IdleTimeoutMs)];
    }

    /** Re-arm the idle timer of a user who has a record, whatever its status. */
    method ResetIdleTimer(userId: string, now: int)
      requires Valid()
      modifies this
      ensures Valid()
      ensures instanceTimers == if userId in old(userInstances)
                                then old(instanceTimers)[userId := Armed(now + IdleTimeoutMs)]
                                else old(instanceTimers)
      ensures userInstances == old(userInstances) && statusLog == old(statusLog)
    {
      if userId in userInstances {
        SetIdleTimer(userId, now);
      }
    }

    /**
     * Remove the user's container, close their tunnel, then drop their timer
     * and record. Without a record nothing happens. A removal that throws is
     * logged and ends the cleanup, so the tunnel, timer and record stay.
     */
    method CleanupInstance(userId: string, removal: Docker.ContainerProbe)
      requires Valid()
      modifies this, docker, tunnelManager
      ensures Valid()
      ensures statusLog == old(statusLog)
      ensures userId !in old(userInstances) ==>
                && userInstances == old(userInstances)
                && instanceTimers == old(instanceTimers)
                && docker.usedPorts == old(docker.usedPorts)
                && tunnelManager.tunnels == old(tunnelManager.tunnels)
      ensures userId in old(userInstances) ==>
                docker.usedPorts == Docker.PortsAfterRemoval(old(docker.usedPorts), removal)
      ensures userId in old(userInstances) && Docker.RemovalSucceeds(removal) ==>
                && userInstances == old(userInstances) - {userId}
                && instanceTimers == old(instanceTimers) - {userId}
                && tunnelManager.tunnels ==
                     if old(userInstances)[userId].tunnelId.Some?
                     then old(tunnelManager.tunnels) - {old(userInstances)[userId].tunnelId.value}
                     else old(tunnelManager.tunnels)
      ensures userId in old(userInstances) && !Docker.RemovalSucceeds(removal) ==>
                && userInstances == old(userInstances)
                && instanceTimers == old(instanceTimers)
                && tunnelManager.tunnels == old(tunnelManager.tunnels)
    {
      if userId !in userInstances {
        return;
      }
      var inst := userInstances[userId];
      var removed := docker.RemoveContainer(removal);
      if removed.Failure? {
        return;
      }
      match inst.tunnelId {
        case Some(t) => tunnelManager.CloseTunnel(t);
        case None =>
      }
      instanceTimers := instanceTimers - {userId};
      userInstances := userInstances - {userId};
    }

    /**
     * POST /api/apply-instance: a user who already has a record is refused
     * and nothing changes; otherwise a record in status Creating with no
     * container, tunnel or URL is filed under the user and its id returned.
     */
    method ApplyInstance(userId: string, nowMs: nat, createdAt: string) returns (r: Result<string, string>)
      requires Valid()
      modifies this
      ensures Valid()
      ensures r.Failure? <==> userId in old(userInstances)
      ensures r.Failure? ==>
                r.error == AlreadyAppliedError && userInstances == old(userInstances) && statusLog == old(statusLog)
      ensures r.Success? ==>
                && r.value == InstanceIdAt(nowMs)
                && userInstances == old(userInstances)[userId :=
                     Instance(r.value, userId, Creating, createdAt, None, None, None, None, None)]
                && statusLog == old(statusLog) + [Creating]
      ensures instanceTimers == old(instanceTimers)
    {
      if HasUserInstance(userId) {
        return Failure(AlreadyAppliedError);
      }
      var instanceId := InstanceIdAt(nowMs);
      Record(userId, Instance(instanceId, userId, Creating, createdAt, None, None, None, None, None));
      r := Success(instanceId);
    }

    /** The catch block of `createInstanceAsync`: record status Error and the message, then clean up. */
    method FailProvisioning(userId: string, inst: Instance, message: string, removal: Docker.ContainerProbe)
      requires Valid() && userId in userInstances && inst.userId == userId
      modifies this, docker, tunnelManager
      ensures Valid()
      ensures statusLog == old(statusLog) + [Error]
      ensures docker.usedPorts == Docker.PortsAfterRemoval(old(docker.usedPorts), removal)
      ensures Docker.RemovalSucceeds(removal) ==>
                && userInstances == old(userInstances) - {userId}
                && instanceTimers == old(instanceTimers) - {userId}
                && tunnelManager.tunnels ==
                     if inst.tunnelId.Some? then old(tunnelManager.tunnels) - {inst.tunnelId.value}
                     else old(tunnelManager.tunnels)
      ensures !Docker.RemovalSucceeds(removal) ==>
                && userInstances == old(userInstances)[userId := inst.(status := Error, error := Some(message))]
                && instanceTimers == old(instanceTimers)
                && tunnelManager.tunnels == old(tunnelManager.tunnels)
    {
      Record(userId, inst.(status := Error, error := Some(message)));
      CleanupInstance(userId, removal);
    }

    /**
     * `createInstanceAsync`: create the container, then the tunnel to its web
     * port, then wait for the container, moving the record's status along at
     * each step; when all succeed the status is Ready and the idle timer is
     * armed (due ten minutes after `readyAt`). The first failure sets status
     * Error with its message and cleans the user up.
     */
    method CreateInstanceAsync(userId: string, instanceId: string, backend: Backend, readyAt: int)
      requires Valid()
      requires userId in userInstances ==> userInstances[userId].instanceId == instanceId
      modifies this, docker, tunnelManager
      ensures Valid()
      ensures userId !in old(userInstances) ==>
                && statusLog == old(statusLog)
                && userInstances == old(userInstances)
                && instanceTimers == old(instanceTimers)
                && docker.usedPorts == old(docker.usedPorts)
                && tunnelManager.tunnels == old(tunnelManager.tunnels)
      ensures userId in old(userInstances) ==>
                && statusLog == old(statusLog) + ProvisioningTrace(backend)
                && tunnelManager.tunnels == TunnelsAfterProvisioning(
                     old(tunnelManager.tunnels), old(userInstances)[userId], instanceId,
                     Docker.LowestFreePort(old(docker.usedPorts), Docker.BasePort), backend)
      ensures userId in old(userInstances) && ProvisioningSucceeds(backend) ==>
                var port := Docker.LowestFreePort(old(docker.usedPorts), Docker.BasePort);
                && userInstances == old(userInstances)[userId := Provisioned(old(userInstances)[userId], instanceId, port, backend)]
                && instanceTimers == old(instanceTimers)[userId := Armed(readyAt + IdleTimeoutMs)]
                && docker.usedPorts == old(docker.usedPorts) + {port}
      ensures userId in old(userInstances) && !ProvisioningSucceeds(backend) ==>
                docker.usedPorts == Docker.PortsAfterRemoval(
                  if backend.launch.Launched?
                  then old(docker.usedPorts) + {Docker.LowestFreePort(old(docker.usedPorts), Docker.BasePort)}
                  else old(docker.usedPorts),
                  backend.removal)
      ensures userId in old(userInstances) && !ProvisioningSucceeds(backend) && Docker.RemovalSucceeds(backend.removal) ==>
                && userInstances == old(userInstances) - {userId}
                && instanceTimers == old(instanceTimers) - {userId}
      ensures userId in old(userInstances) && !ProvisioningSucceeds(backend) && !Docker.RemovalSucceeds(backend.removal) ==>
                var port := Docker.LowestFreePort(old(docker.usedPorts), Docker.BasePort);
                && userInstances == old(userInstances)[userId := Provisioned(old(userInstances)[userId], instanceId, port, backend)]
                && instanceTimers == old(instanceTimers)
    {
      if userId !in userInstances {
        return;
      }
      LaunchContainer(userId, instanceId, userInstances[userId], backend, readyAt);
    }

    /**
     * The body of `createInstanceAsync` for a user who has the record `inst`:
     * status CreatingContainer, the container launch, then the tunnel and the
     * wait; a failed launch records Error and cleans up.
     */
    method LaunchContainer(userId: string, instanceId: string, inst: Instance, backend: Backend, readyAt: int)
      requires Valid() && userId in userInstances && userInstances[userId] == inst
      modifies this, docker, tunnelManager
      ensures Valid()
      ensures statusLog == old(statusLog) + ProvisioningTrace(backend)
      ensures tunnelManager.tunnels == TunnelsAfterProvisioning(
                old(tunnelManager.tunnels), inst, instanceId,
                Docker.LowestFreePort(old(docker.usedPorts), Docker.BasePort), backend)
      ensures ProvisioningSucceeds(backend) ==>
                var port := Docker.LowestFreePort(old(docker.usedPorts), Docker.BasePort);
                && userInstances == old(userInstances)[userId := Provisioned(inst, instanceId, port, backend)]
                && instanceTimers == old(instanceTimers)[userId := Armed(readyAt + IdleTimeoutMs)]
                && docker.usedPorts == old(docker.usedPorts) + {port}
      ensures !ProvisioningSucceeds(backend) ==>
                docker.usedPorts == Docker.PortsAfterRemoval(
                  if backend.launch.Launched?
                  then old(docker.usedPorts) + {Docker.LowestFreePort(old(docker.usedPorts), Docker.BasePort)}
                  else old(docker.usedPorts),
                  backend.removal)
      ensures !ProvisioningSucceeds(backend) && Docker.RemovalSucceeds(backend.removal) ==>
                && userInstances == old(userInstances) - {userId}
                && instanceTimers == old(instanceTimers) - {userId}
      ensures !ProvisioningSucceeds(backend) && !Docker.RemovalSucceeds(backend.removal) ==>
                var port := Docker.LowestFreePort(old(docker.usedPorts), Docker.BasePort);
                && userInstances == old(userInstances)[userId := Provisioned(inst, instanceId, port, backend)]
                && instanceTimers == old(instanceTimers)
    {
      ghost var port := Docker.LowestFreePort(docker.usedPorts, Docker.BasePort);
      var current := inst.(status := CreatingContainer);
      Record(userId, current);
      var container := docker.CreateVNCContainer(instanceId, Docker.DefaultInstanceType, backend.launch);
      if container.Failure? {
        LaunchFailureOutcome(old(tunnelManager.tunnels), inst, instanceId, port, backend);
        FailProvisioning(userId, current, container.error, backend.removal);
        return;
      }
      current := current.(containerId := Some(container.value.id), port := Some(container.value.port));
      LaunchedOutcome(old(tunnelManager.tunnels), inst, current, instanceId, port, backend);
      ProvisionTunnel(userId, instanceId, current, container.value.port, backend, readyAt);
    }

    /**
     * The steps of `createInstanceAsync` after the container exists: the
     * tunnel to its web port, the wait for the container, then Ready and the
     * idle timer; a failure records Error and cleans up.
     */
    method ProvisionTunnel(userId: string, instanceId: string, inst: Instance, port: int,
                           backend: Backend, readyAt: int)
      requires Valid() && userId in userInstances && inst.userId == userId
      requires backend.launch.Launched? && inst.containerId == Some(backend.launch.containerId) && inst.port == Some(port)
      modifies this, docker, tunnelManager
      ensures Valid()
      ensures statusLog == old(statusLog) + ProvisioningTrace(backend)[1..]
      ensures tunnelManager.tunnels == TunnelsAfterProvisioning(old(tunnelManager.tunnels), inst, instanceId, port, backend)
      ensures ProvisioningSucceeds(backend) ==>
                && userInstances == old(userInstances)[userId := Provisioned(inst, instanceId, port, backend)]
                && instanceTimers == old(instanceTimers)[userId := Armed(readyAt + IdleTimeoutMs)]
                && docker.usedPorts == old(docker.usedPorts)
      ensures !ProvisioningSucceeds(backend) ==>
                docker.usedPorts == Docker.PortsAfterRemoval(old(docker.usedPorts), backend.removal)
      ensures !ProvisioningSucceeds(backend) && Docker.RemovalSucceeds(backend.removal) ==>
                && userInstances == old(userInstances) - {userId}
                && instanceTimers == old(instanceTimers) - {userId}
      ensures !ProvisioningSucceeds(backend) && !Docker.RemovalSucceeds(backend.removal) ==>
                && userInstances == old(userInstances)[userId := Provisioned(inst, instanceId, port, backend)]
                && instanceTimers == old(instanceTimers)
    {
      var current := inst.(status := CreatingTunnel);
      Record(userId, current);
      var tunnel := tunnelManager.CreateTunnel(instanceId, port, backend.tunnelCheck,
                                               backend.tunnelEvents, backend.readiness, backend.tunnelCreatedAt);
      if tunnel.Failure? {
        TunnelFailureOutcome(old(tunnelManager.tunnels), inst, instanceId, port, backend);
        FailProvisioning(userId, current, tunnel.error, backend.removal);
        return;
      }
      current := current.(tunnelId := Some(tunnel.value.id), vncUrl := Some(tunnel.value.url));
      TunnelUpOutcome(old(tunnelManager.tunnels), inst, current, instanceId, port, backend);
      AwaitContainer(userId, current, backend.containerWait, backend.removal, readyAt);
    }

    /**
     * The last steps of `createInstanceAsync`: status Starting, the wait for
     * the container, then Ready and the idle timer; a failed wait records
     * Error and cleans up, which closes the record's tunnel when the
     * container removal succeeds.
     */
    method AwaitContainer(userId: string, current: Instance, wait: Docker.ContainerWait,
                          removal: Docker.ContainerProbe, readyAt: int)
      requires Valid() && userId in userInstances && current.userId == userId
      requires WellFormed(current.(status := Starting))
      modifies this, docker, tunnelManager
      ensures Valid()
      ensures statusLog == old(statusLog) + (if wait.Running? then [Starting, Ready] else [Starting, Error])
      ensures wait.Running? ==>
                && userInstances == old(userInstances)[userId := current.(status := Ready)]
                && instanceTimers == old(instanceTimers)[userId := Armed(readyAt + IdleTimeoutMs)]
                && docker.usedPorts == old(docker.usedPorts)
                && tunnelManager.tunnels == old(tunnelManager.tunnels)
      ensures !wait.Running? ==>
                docker.usedPorts == Docker.PortsAfterRemoval(old(docker.usedPorts), removal)
      ensures !wait.Running? && Docker.RemovalSucceeds(removal) ==>
                && userInstances == old(userInstances) - {userId}
                && instanceTimers == old(instanceTimers) - {userId}
                && tunnelManager.tunnels == old(tunnelManager.tunnels) - {current.tunnelId.value}
      ensures !wait.Running? && !Docker.RemovalSucceeds(removal) ==>
                && userInstances == old(userInstances)[userId :=
                     current.(status := Error, error := Some(Docker.WaitForContainer(wait).error))]
                && instanceTimers == old(instanceTimers)
                && tunnelManager.tunnels == old(tunnelManager.tunnels)
    {
      var starting := current.(status := Starting);
      Record(userId, starting);
      var waited := Docker.WaitForContainer(wait);
      if waited.Failure? {
        FailProvisioning(userId, starting, waited.error, removal);
        return;
      }
      Record(userId, starting.(status := Ready));
      SetIdleTimer(userId, readyAt);
    }

    /**
     * GET /api/instance-status/:instanceId: not found unless the user has a
     * record with that id; otherwise the timer is re-armed and the record's
     * fields returned.
     */
    method InstanceStatus(userId: string, instanceId: string, now: int) returns (r: Result<InstanceView, string>)
      requires Valid()
      modifies this
      ensures Valid()
      ensures r.Failure? <==> userId !in old(userInstances) || old(userInstances)[userId].instanceId != instanceId
      ensures r.Failure? ==> r.error == InstanceNotFoundError && instanceTimers == old(instanceTimers)
      ensures r.Success? ==>
                var inst := old(userInstances)[userId];
                && r.value == InstanceView(inst.instanceId, inst.status, inst.vncUrl, inst.error, inst.createdAt)
                && instanceTimers == old(instanceTimers)[userId := Armed(now + IdleTimeoutMs)]
      ensures userInstances == old(userInstances) && statusLog == old(statusLog)
    {
      if userId !in userInstances || userInstances[userId].instanceId != instanceId {
        return Failure(InstanceNotFoundError);
      }
      var inst := userInstances[userId];
      ResetIdleTimer(userId, now);
      r := Success(InstanceView(inst.instanceId, inst.status, inst.vncUrl, inst.error, inst.createdAt));
    }

    /** POST /api/heartbeat: succeeds, re-arming the timer, exactly when the user has a record. */
    method Heartbeat(userId: string, now: int) returns (ok: bool)
      requires Valid()
      modifies this
      ensures Valid()
      ensures ok <==> userId in old(userInstances)
      ensures instanceTimers == if ok then old(instanceTimers)[userId := Armed(now + IdleTimeoutMs)]
                                else old(instanceTimers)
      ensures userInstances == old(userInstances) && statusLog == old(statusLog)
    {
      ok := userId in userInstances;
      if ok {
        ResetIdleTimer(userId, now);
      }
    }

    /** GET /api/user-status: whether the user has a record, and if so its summary; visiting re-arms the timer. */
    method UserStatus(userId: string, now: int) returns (hasInstance: bool, info: Option<UserInstanceView>)
      requires Valid()
      modifies this
      ensures Valid()
      ensures hasInstance <==> userId in old(userInstances)
      ensures hasInstance <==> info.Some?
      ensures hasInstance ==>
                var inst := old(userInstances)[userId];
                && info.value == UserInstanceView(inst.instanceId, inst.vncUrl, inst.status, inst.createdAt)
                && instanceTimers == old(instanceTimers)[userId := Armed(now + IdleTimeoutMs)]
      ensures !hasInstance ==> instanceTimers == old(instanceTimers)
      ensures userInstances == old(userInstances) && statusLog == old(statusLog)
    {
      hasInstance := HasUserInstance(userId);
      info := None;
      if hasInstance {
        var inst := userInstances[userId];
        info := Some(UserInstanceView(inst.instanceId, inst.vncUrl, inst.status, inst.createdAt));
        ResetIdleTimer(userId, now);
      }
    }

    /**
     * The clock reaches `now`: a user's timer that is armed and due runs once
     * and cleans the user up. A timer that is not due, or already ran, does
     * nothing.
     */
    method IdleTimerFires(userId: string, now: int, removal: Docker.ContainerProbe) returns (fired: bool)
      requires Valid()
      modifies this, docker, tunnelManager
      ensures Valid()
      ensures fired <==> userId in old(instanceTimers) && old(instanceTimers)[userId].Armed?
                         && old(instanceTimers)[userId].deadline <= now
      ensures statusLog == old(statusLog)
      ensures !fired ==>
                && userInstances == old(userInstances)
                && instanceTimers == old(instanceTimers)
                && docker.usedPorts == old(docker.usedPorts)
                && tunnelManager.tunnels == old(tunnelManager.tunnels)
      ensures fired ==> docker.usedPorts == Docker.PortsAfterRemoval(old(docker.usedPorts), removal)
      ensures fired && Docker.RemovalSucceeds(removal) ==>
                && userInstances == old(userInstances) - {userId}
                && instanceTimers == old(instanceTimers) - {userId}
                && tunnelManager.tunnels ==
                     if old(userInstances)[userId].tunnelId.Some?
                     then old(tunnelManager.tunnels) - {old(userInstances)[userId].tunnelId.value}
                     else old(tunnelManager.tunnels)
      ensures fired && !Docker.RemovalSucceeds(removal) ==>
                && userInstances == old(userInstances)
                && instanceTimers == old(instanceTimers)[userId := Fired]
                && tunnelManager.tunnels == old(tunnelManager.tunnels)
    {
      fired := userId in instanceTimers && instanceTimers[userId].Armed? && instanceTimers[userId].deadline <= now;
      if fired {
        instanceTimers := instanceTimers[userId := Fired];
        CleanupInstance(userId, removal);
      }
    }
  }
}
