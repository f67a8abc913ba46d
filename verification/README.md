# vnccc in Dafny

This project models the bookkeeping of vnccc, a service that hands each
anonymous visitor one short-lived VNC desktop. A desktop is a Docker
container whose noVNC web port is published through a Cloudflare quick
tunnel. The model covers five parts of the repository, one Dafny module
each:

- `Docker` (`docker_manager.dfy`) models `docker-manager.js`:
  - the host-port allocator over `usedPorts`, scanning upward from 6080;
  - the release of the port when container creation throws;
  - the resource table, with its default entry;
  - the release of the port bound to 80/tcp when a container is removed;
  - the startup and shutdown sweeps.
- `Tunnel` (`tunnel_manager.dfy`) models `tunnel-manager.js`:
  - recognising `https://<label>.trycloudflare.com` in cloudflared's output;
  - which error phrases abort tunnel creation;
  - the event handlers of `startTunnel`, run over a sequence of process events;
  - the readiness probe loop;
  - the registry of open tunnels, keyed `vnc-<instanceId>`.
- `Server` (`server.dfy`) models `server.js`:
  - one instance record per user;
  - the provisioning sequence creating_container → creating_tunnel → starting → ready, where any failure ends in error and cleanup;
  - a ten-minute idle timer per user, which status polls and heartbeats re-arm;
  - the four HTTP handlers.
- `SessionApp` (`session_app.dfy`) models the Flask variant in `app/server.py`:
  - users and sessions, kept as sequences in row-id order;
  - admission capped at 50 sessions;
  - the sweep that evicts sessions idle for more than 600 s;
  - register and login.
- `FakeProcFs` (`fake_procfs.dfy`) models the FUSE filesystem in `fakeprocfs.py`, which is mounted over `/proc` inside a desktop:
  - the cpuinfo and stat generators (one block or line per configured core);
  - the three constant files;
  - `getattr`, `readdir` and `read`.

`Text` holds decimal numerals, substring tests and UTF-8 encoding. `Wrappers` holds `Option` and `Result`.

State that the source mutates in place is modelled as classes:
- `DockerManager.usedPorts` is a `set<int>`;
- `TunnelManager.tunnels` is a `map`;
- `InstanceServer.userInstances` and `instanceTimers` are `map`s;
- `SessionApp.users` and `sessions` are `seq`s.

Each operation that changes state is a method whose `ensures` gives the new value of every field it may modify, on every path, failures included:
- the tunnel registry after a failed provisioning is `Server.TunnelsAfterProvisioning`;
- the ports after an interrupted shutdown sweep are `Docker.PortsAfterSweep`.

Every status a record is given is written through `InstanceServer.Record`, which also appends it to the ghost `statusLog`. The provisioning methods state their effect on that log, so the lifecycle lemma is about the statuses actually stored.

The loops of the source are kept as `while` loops with invariants. These loops are proved against a specification function, and the properties the source promises are lemmas about those functions:
- the port scan, against `LowestFreePort`;
- the shutdown sweep, against `PortsAfterSweep`;
- the session sweep, against `KeepActive`;
- the `startTunnel` event handlers, against `Settle`;
- the generators, against `CpuinfoBlocks` and `CpuLines`.

Two loops are specified directly in their `ensures`, with no separate function:
- the readiness loop (`WaitForTunnelReady`): ready exactly when some round succeeded;
- `readdir` (`FakeProcFs.Readdir`): its listing, element by element.

Calls to the outside world become parameters that carry their outcomes:
- the Docker Engine: dockerode, and the Docker SDK for Python;
- cloudflared (spawn, stream events, exit);
- the HTTP probes (axios);
- the free-port socket;
- the clock.

A Docker call becomes a `LaunchOutcome`, `ContainerProbe` or `ContainerWait`. A cloudflared run becomes a sequence of `TunnelEvent`s. The probes become a sequence of `ReadinessAttempt`s. Times become arguments: `now` in milliseconds, and the ISO-8601 creation times of records (`createdAt`) and of tunnel entries (`Backend.tunnelCreatedAt`).

Each HTTP handler runs as one atomic step, and so does the whole of `createInstanceAsync`.

Behaviour of the code that the model keeps:
- **Apply refuses only a second record.** `server.js` has no wait queue, no concurrency ceiling and no capacity limit: apply refuses only a user who already has a record. The one cap is `MAX_USERS` (50 sessions) in `app/server.py`.
- **Cleanup stops at the first failure.** In `cleanupInstance` a removal that throws ends the cleanup, and the tunnel, timer and record stay.
- **The port is released only by container removal.** Cleanup releases a port only when `removeContainer` reads it from the container's inspected 80/tcp binding. For a container Docker no longer knows (404) nothing is read, and its port stays marked used (`Docker.PortsAfterRemoval`).
- **Records go only by idle expiry or failed provisioning.** `server.js` has no delete endpoint and no periodic sweep of records.
- **The idle timer is re-armed in any status.** Polls and heartbeats re-arm the timer of every user who has a record, whatever its status.

## Model

| member | source | states |
|---|---|---|
| Docker.LowestFreePort | docker-manager.js:60-64 | the port is at or above the start, is not in use, and every port below it from the start is in use: the lowest free port |
| Docker.LowestFreePortUnique | docker-manager.js:60-64 | any port with those three properties is the one LowestFreePort returns |
| Docker.CoveredRangeSize | docker-manager.js:62-64 | a set that holds every port of [lo, hi) has at least hi - lo elements, so the upward scan ends |
| Docker.SuccessiveAllocationsDiffer | docker-manager.js:60-67 | two allocations with no release in between return different ports, the second above the first |
| Docker.ResourceConfigUniform | docker-manager.js:142-161 | every instance type, listed or not, gets 2·1024³ bytes of memory and 1024 CPU shares |
| Docker.GetResourceConfigAsWritten | docker-manager.js:161 | the lookup as written agrees with the table for every listed type |
| Docker.InheritedNameEscapesDefault | docker-manager.js:161 | "toString" is not a listed type, yet the lookup as written does not fall back to the default entry |
| Docker.PortsAfterRemoval | docker-manager.js:232-236 | removal only ever frees ports; the port read from the inspected 80/tcp binding is freed; without a successful inspect nothing is freed |
| Docker.PortsAfterSweep | docker-manager.js:283-304 | a sweep only ever frees ports, and when every removal succeeds no port is left in use |
| Docker.SweepFailureKeepsUnlistedPorts | docker-manager.js:294-299 | when some removal throws, every port that no listed container was bound to stays in use, because `usedPorts.clear()` is skipped |
| Docker.WaitForContainer | docker-manager.js:193-222 | waiting succeeds, with true, exactly when the container was seen running; every other outcome is an error |
| Docker.DockerManager.constructor | docker-manager.js:4-7 | a new manager has no port in use |
| Docker.DockerManager.GetAvailablePort | docker-manager.js:60-67 | returns the lowest free port from 6080, which was not in use; afterwards exactly that port has been added |
| Docker.DockerManager.ReleasePort | docker-manager.js:70-72 | exactly the given port is removed; a port not in use leaves the set unchanged |
| Docker.DockerManager.CreateVNCContainer | docker-manager.js:75-136 | succeeds exactly when the launch did; on success the port is the lowest free one, the VNC port is 1000 above it, the name is `vnc-instance-<id>` and only that port was added; on failure the error carries the creation-failed prefix and the used ports are as before |
| Docker.DockerManager.RemoveContainer | docker-manager.js:226-256 | succeeds exactly for a 404 or a clean teardown; the used ports become PortsAfterRemoval, so the 80/tcp port is freed even when the teardown then fails; each error carries the removal-failed prefix |
| Docker.DockerManager.InitializePortUsage | docker-manager.js:14-57 | after a successful listing no port is in use; a failed listing changes nothing |
| Docker.DockerManager.CleanupAllInstances | docker-manager.js:283-304 | the used ports become PortsAfterSweep of the listing: a failed listing changes nothing, the first removal that throws ends the sweep after its own port release, and only a sweep where every removal succeeds clears the set |
| Tunnel.LabelEnd | tunnel-manager.js:106 | the end of the longest run of `[a-zA-Z0-9-]` characters from a position |
| Tunnel.MatchWith | tunnel-manager.js:106 | a match at a position is a substring there made of the scheme, a non-empty label and the suffix |
| Tunnel.MatchWithRecognizes | tunnel-manager.js:106 | where scheme, label and suffix stand at a position, and the suffix starts with a non-label character, the match there is exactly that text |
| Tunnel.MatchAt | tunnel-manager.js:106 | a match of the tunnel pattern at a position is a well-formed tunnel URL occurring there |
| Tunnel.FirstMatchFrom | tunnel-manager.js:106 | the leftmost position where the pattern matches: it matches there and at no earlier position, and None means it matches nowhere |
| Tunnel.FindTunnelUrl | tunnel-manager.js:106 | whatever `output.match` returns is a well-formed tunnel URL |
| Tunnel.MatchAtRecognizes | tunnel-manager.js:106 | at a position holding `https://` + label + `.trycloudflare.com` the pattern matches exactly that URL |
| Tunnel.FindTunnelUrlComplete | tunnel-manager.js:106-112 | any output chunk containing a well-formed tunnel URL yields a URL, found at or before it |
| Tunnel.StderrAbortsOnlyOnFatal | tunnel-manager.js:130-145 | an error chunk aborts exactly when it names edge failure, authentication or login and no URL was found; 'error=' or 'ERR ' alone never aborts |
| Tunnel.CloudflaredArgs | tunnel-manager.js:73-90 | six arguments, starting `tunnel --url` followed by `http://localhost:<port>` |
| Tunnel.CloudflaredArgsIgnoreName | tunnel-manager.js:73-90 | both branches build the same argument vector, whatever the tunnel name |
| Tunnel.StepOn | tunnel-manager.js:101-159 | one event: a resolution carries a well-formed tunnel URL; an edge rejection comes only from an error chunk with a fatal phrase; a close or a spawn error always rejects; otherwise the outputs only grow |
| Tunnel.Settle | tunnel-manager.js:101-159 | a promise that is still pending after the events has seen only output chunks, since a close or a spawn error always settles it |
| Tunnel.SettleSound | tunnel-manager.js:101-159 | the start promise resolves only with a well-formed tunnel URL, and an error chunk rejects it only when it names a fatal condition |
| Tunnel.SettleLatches | tunnel-manager.js:107-111 | once the promise has settled, later events (further URLs, errors, exit) change nothing |
| Tunnel.NonFatalOutputNeverRejects | tunnel-manager.js:101-147 | output chunks without a fatal phrase never reject the promise |
| Tunnel.UrlBeforeFatalInSameChunk | tunnel-manager.js:121-145 | a chunk that carries both a URL and a fatal phrase resolves, because the URL test runs first |
| Tunnel.StartTunnel | tunnel-manager.js:70-168 | the handlers run over the events in order give exactly the settlement Settle describes, with a still-pending promise timing out; a success is a well-formed tunnel URL |
| Tunnel.WaitForTunnelReady | tunnel-manager.js:278-320 | true exactly when some round had both the local port and then the tunnel answer 200; it never fails |
| Tunnel.StartErrorMessage | tunnel-manager.js:143-165 | the reject messages end with their cause: the fatal chunk, the accumulated error output, or the spawn error message |
| Tunnel.TunnelIdOf | tunnel-manager.js:12 | the id is `vnc-` followed by the instance id, which can be read back from it |
| Tunnel.TunnelManager.constructor | tunnel-manager.js:5-8 | a new registry is empty |
| Tunnel.TunnelManager.CreateTunnel | tunnel-manager.js:11-48 | succeeds exactly when cloudflared runs and the promise resolves; then only the entry `vnc-<instanceId>` with the local port, URL and creation time is set, whatever the probes say; on failure the registry is unchanged and the error carries the tunnel-failed prefix and the cause |
| Tunnel.TunnelManager.CloseTunnel | tunnel-manager.js:187-223 | only the given id is removed; an unknown id changes nothing |
| Tunnel.TunnelManager.GetTunnelStatus | tunnel-manager.js:226-240 | None exactly for an unknown id; otherwise the stored id, instance id, URL, local port and creation time, reported running |
| Tunnel.TunnelManager.CleanupAllTunnels | tunnel-manager.js:243-253 | afterwards no tunnel is open |
| Server.InstanceIdAt | server.js:135 | `VNC-` followed by the last six characters of the millisecond clock: the whole numeral below 10^6, otherwise exactly six digits; either way they read back as the clock modulo 10^6 |
| Server.ProvisioningFailureCases | server.js:173-205 | provisioning fails exactly when the launch fails, the tunnel does not come up or the container is not running; a failed launch reports Docker's message |
| Server.ProvisioningTraceFollowsLifecycle | server.js:175-201 | the statuses assigned are a prefix of creating_container, creating_tunnel, starting, ready that either completes or ends in error, and it ends in ready exactly when nothing failed |
| Server.Provisioned | server.js:169-205 | the record at the end of provisioning is well formed and keeps its instance id, user and creation time |
| Server.ProvisionedRecord | server.js:169-205 | the record after provisioning is ready or error with the failing step's message, and holds the container and tunnel fields of each step that succeeded |
| Server.ProvisioningTunnelOutcome | server.js:169-205 | for a fresh record: success adds exactly the tunnel `vnc-<id>`; a failure whose cleanup removes the container leaves the registry as it was; when that removal throws, the tunnel stays registered exactly when the tunnel step had succeeded |
| Server.LaunchFailureOutcome | server.js:175-177 | a failed launch gives the statuses creating_container then error, Docker's message, and a cleanup that closes only a tunnel the record already named |
| Server.LaunchedOutcome | server.js:175-179 | once the container exists, the rest of provisioning depends on the record only through its other fields |
| Server.TunnelFailureOutcome | server.js:181-183 | a failed tunnel step gives the statuses creating_tunnel then error, the tunnel-failed message, and registers nothing |
| Server.TunnelUpOutcome | server.js:181-191 | once the tunnel is up, the wait decides between ready and error, and a cleanup that removes the container closes that tunnel |
| Server.InstanceServer.constructor | server.js:19-24 | both maps are empty, no port is in use and no tunnel is open |
| Server.InstanceServer.HasUserInstance | server.js:40-42 | with consistent tables, a user has a record exactly when some record belongs to that user |
| Server.InstanceServer.Record | server.js:175-200 | files the record under its user and appends its status to the status log; timers are untouched |
| Server.InstanceServer.SetIdleTimer | server.js:45-58 | the user's timer is replaced by one due ten minutes from now; records are untouched |
| Server.InstanceServer.ResetIdleTimer | server.js:61-66 | re-arms the timer exactly when the user has a record, whatever its status |
| Server.InstanceServer.CleanupInstance | server.js:69-93 | without a record nothing changes; otherwise the container's port is freed; on a clean removal exactly the user's timer, record and tunnel go; on a failed removal the rest is skipped and the record stays |
| Server.InstanceServer.ApplyInstance | server.js:124-166 | refused, with no change, exactly when the user has a record; otherwise a record in status creating with no container, tunnel or URL is filed under the user, and creating is logged |
| Server.InstanceServer.FailProvisioning | server.js:198-205 | the record gets status error and the message, which is logged, then cleanup runs for that user: the port is freed, and the record, timer and tunnel go only when the removal succeeds |
| Server.InstanceServer.CreateInstanceAsync | server.js:157-206 | called with the record's own instance id, as the apply handler does; a user without a record is left alone; otherwise the statuses logged are exactly ProvisioningTrace and the tunnel registry becomes TunnelsAfterProvisioning; on success the record is Provisioned (ready, with URL), the timer is armed and the port added; on failure the port is freed by the removal, and the record and timer go exactly when the removal succeeds |
| Server.InstanceServer.LaunchContainer | server.js:173-206 | for the user's record: the statuses logged are exactly ProvisioningTrace and the tunnel registry becomes TunnelsAfterProvisioning; on success the record is Provisioned, the timer armed and the launched port added; on failure the port set is what the removal leaves, and the record and timer go exactly when the removal succeeds |
| Server.InstanceServer.ProvisionTunnel | server.js:180-205 | from the tunnel step on: the statuses logged continue ProvisioningTrace, the tunnel registry becomes TunnelsAfterProvisioning, and the record, timer and ports are those of success or of the cleanup |
| Server.InstanceServer.AwaitContainer | server.js:186-205 | status starting, then ready with the timer armed when the container runs; otherwise error and cleanup, which closes the tunnel when the removal succeeds and leaves it registered when the removal throws |
| Server.InstanceServer.InstanceStatus | server.js:209-233 | not found exactly when the user has no record or its id differs; otherwise the record's fields, with the timer re-armed |
| Server.InstanceServer.Heartbeat | server.js:236-246 | succeeds, re-arming the timer, exactly when the user has a record; records are untouched |
| Server.InstanceServer.UserStatus | server.js:98-121 | reports a record exactly when the user has one, with its summary, and then re-arms the timer |
| Server.InstanceServer.IdleTimerFires | server.js:52-55 | the timer runs exactly when armed and due, runs once, and cleans the user up: the port is freed, and the record, timer and tunnel go when the removal succeeds; otherwise nothing changes |
| SessionApp.KeepActive | app/server.py:57-67 | keeps exactly the sessions idle for at most 600 s, in order |
| SessionApp.Expired | app/server.py:60 | only a session last active before now can have expired |
| SessionApp.ExpiredPersists | app/server.py:60 | a session that has expired stays expired at every later instant |
| SessionApp.KeepActiveAllActive | app/server.py:59-60 | a sweep over sessions none of which has expired keeps them all |
| SessionApp.KeepActiveIdempotent | app/server.py:57-67 | a second sweep at the same instant changes nothing |
| SessionApp.KeepActiveOnePerUser | app/server.py:57-67 | the sweep keeps every user at one session at most |
| SessionApp.SweepInactive | app/server.py:57-67 | the loop fails exactly when an expired session's container raised something other than NotFound; otherwise it keeps KeepActive |
| SessionApp.FindByUsername | app/server.py:88 | the first user with that name, or none exists |
| SessionApp.FindByCredentials | app/server.py:103 | a user whose name and password both match, or none exists |
| SessionApp.FirstShown | app/server.py:79 | a prefix of the sessions of length at most six, all of them when there are six or fewer |
| SessionApp.AdmissionKeepsTables | app/server.py:76-78 | admitting an existing user without a session below 50 sessions keeps one session per user and the cap |
| SessionApp.SessionApp.constructor | app/server.py:122-123 | both tables start empty |
| SessionApp.SessionApp.CleanupInactive | app/server.py:57-67 | the sessions become KeepActive, and a Docker error other than NotFound rolls everything back |
| SessionApp.SessionApp.StartContainer | app/server.py:44-54 | a started container adds exactly one session for the user on the given port; a failed run adds nothing |
| SessionApp.SessionApp.Index | app/server.py:70-80 | redirects without login; otherwise sweeps, starts a container only when the user has no session and fewer than 50 remain, and renders the first six sessions; the cap and one session per user are kept |
| SessionApp.SessionApp.AdmitAndRender | app/server.py:75-80 | an unknown user is an error; admission happens exactly when the user has no session and fewer than 50 exist |
| SessionApp.SessionApp.Register | app/server.py:83-95 | refused, with no user added, exactly when the name exists; otherwise the user is appended with the next id |
| SessionApp.SessionApp.Login | app/server.py:98-108 | succeeds exactly when a user has both that name and that password, returning that user's id |
| FakeProcFs.ProcessorIndexLines | fakeprocfs.py:35-60 | the block has 26 lines, and the processor number fills exactly processor, core id, apicid and initial apicid |
| FakeProcFs.CpuinfoIdentifiersAreIndex | fakeprocfs.py:35-49 | in block i, each of those lines reads back as i |
| FakeProcFs.CpuinfoBlocksShareOtherLines | fakeprocfs.py:35-62 | blocks differ only in the lines the processor number fills |
| FakeProcFs.CpuinfoBlocksDistinct | fakeprocfs.py:34-35 | different processors get different blocks |
| FakeProcFs.GenerateCpuinfo | fakeprocfs.py:32-63 | the content is the UTF-8 encoding of one block per configured core, in order |
| FakeProcFs.CpuLinesDistinct | fakeprocfs.py:129-130 | no two cores share a stat line |
| FakeProcFs.CpuLineIsNotAggregate | fakeprocfs.py:128-130 | no per-core line equals the aggregate `cpu` line |
| FakeProcFs.GenerateStat | fakeprocfs.py:126-139 | the content is the UTF-8 encoding of the aggregate line, the lines cpu0 … cpu(n-1), then the fixed counters |
| FakeProcFs.FixedTextsAscii | fakeprocfs.py:141-148 | the loadavg, version and uptime texts are ASCII |
| FakeProcFs.ConstantFilesIgnoreConfig | fakeprocfs.py:141-148 | the loadavg, version and uptime files are the same whatever the generated files are, and hold the UTF-8 encoding of their fixed texts |
| FakeProcFs.DropFirst | fakeprocfs.py:167 | the first character followed by the result gives back the string |
| FakeProcFs.PathsAndNames | fakeprocfs.py:20-27 | each listed name is its path without the leading "/", and "/" plus the name gives back the path |
| FakeProcFs.ProcFiles | fakeprocfs.py:20-27 | six files, with the paths of the dictionary in its order |
| FakeProcFs.Lookup | fakeprocfs.py:153-174 | None exactly when no file has the path; otherwise the content stored under it |
| FakeProcFs.Slice | fakeprocfs.py:175 | the length is min(length, max(0, size - offset)), and each byte is the byte at offset + k |
| FakeProcFs.SliceWhole | fakeprocfs.py:175 | reading from offset 0 at least the whole size returns the whole content |
| FakeProcFs.SliceConsecutive | fakeprocfs.py:175 | two consecutive reads return what one read over both ranges returns |
| FakeProcFs.FakeProcFs.constructor | fakeprocfs.py:16-30 | the files are the six generated ones and the root is the only directory |
| FakeProcFs.FakeProcFs.Getattr | fakeprocfs.py:150-156 | ENOENT exactly for a path that is neither the root nor a file; the root has mode 0o755 and two links; a file is read-only with one link and its content's size |
| FakeProcFs.FakeProcFs.Read | fakeprocfs.py:170-175 | ENOENT exactly for a path that is not a file; otherwise the slice of length min(length, max(0, size - offset)) from offset |
| FakeProcFs.FakeProcFs.GetattrSizeReadsWhole | fakeprocfs.py:154-175 | reading a file from 0 for the size getattr reports returns its whole content |
| FakeProcFs.FakeProcFs.Readdir | fakeprocfs.py:161-168 | ENOENT for anything but the root; the root lists ".", "..", then each file's path without its first character, which are exactly the six names |
| FakeProcFs.FakeProcFs.ListedNamesResolve | fakeprocfs.py:153-167 | each name the root lists is a regular file under "/" |
| Text.Decimal | fakeprocfs.py:35 | the numeral has at least one digit, only digits, and no leading zero |
| Text.DecimalRoundTrip | fakeprocfs.py:35 | reading a printed numeral back gives the number printed |
| Text.DecimalDelimited | fakeprocfs.py:35 | a numeral followed by a non-digit splits in only one way |
| Text.DecimalLengthBelow | server.js:135 | a number below 10^k prints with at most k digits |
| Text.DecimalLengthAbove | server.js:135 | a number of at least 10^k prints with more than k digits |
| Text.DecimalLastDigits | server.js:135 | the last k digits of a numeral read back as the number modulo 10^k |
| Text.LastDigits | server.js:135 | `substr(-k)` of the numeral: the whole numeral below 10^k, otherwise exactly k digits, reading back as the number modulo 10^k |
| Text.IntString | docker-manager.js:209 | the rendering starts with a minus sign exactly for negative numbers |
| Text.Utf8 | fakeprocfs.py:63 | ASCII text encodes to one byte per character, holding its code |
| Text.AsciiIsUtf8 | fakeprocfs.py:142-148 | on ASCII text the one-byte encoding is the UTF-8 encoding |

## Left out

- `_generate_meminfo` (fakeprocfs.py:65-124) computes its values with float products such as `int(mem_total * 0.8)`; the meminfo content is a constructor parameter instead.
- `getattr` timestamps (`time.time()`), the FUSE mount in `main`, and negative `read` offsets, which FUSE never passes (offset and length are `nat`).
- The configuration values cpuinfo prints are given as the strings Python's `str` makes of the JSON values; JSON loading is not modelled.
- The `SIGTERM` handler of server.js (a cleanup per user, then exit) and `app.listen`.
- The 500 branch of apply-instance: nothing in the guarded block can throw once the record is built.
- Cookies and uuid generation in `getUserId`: the user id is a parameter. The instance id is derived from the clock and is not unique; two users can get the same instance id and tunnel id, and the registry then keeps the later entry.
- Async interleaving: each handler and the whole of `createInstanceAsync` are atomic, so races between provisioning and cleanup or a firing timer are not captured.
- `Docker.WaitForContainer`: the 2 s polling loop and the 60 s deadline of `waitForContainer` are collapsed into the outcome the loop ends with.
- The image pull and the create and start calls are collapsed into one launch outcome.
- `getContainerStatus` (not called by the core).
- `Tunnel.TunnelManager.CreateTunnel`: the `waitForTunnelUrl` poll is not modelled, since the URL is already set when `startTunnel` resolves.
- `Tunnel.StartErrorMessage`: the fatal-error message keeps the stderr chunk as it was; the `output.trim()` of tunnel-manager.js:143 is not modelled.
- Process signals, `kill`, the 5 s SIGKILL fallback of `closeTunnel` and the process handle are not modelled. `Tunnel.TunnelManager.GetTunnelStatus` reports every recorded tunnel as running, because only `closeTunnel` kills a recorded process and it also drops the entry.
- SQLAlchemy persistence, `db.session.commit` failures, the socketio chat and `logout`. The Flask session cookie is the `loggedIn` parameter.
- `last_active` is never updated in app/server.py, so a session expires 600 s after it was created. Times are in microseconds, the resolution of `datetime`.
- script.js (browser UI) and create-fake-proc.py (file writing, float formatting).

## Findings

| source | as written | input that shows it | evidently intended | confidence | as-written member | corrected member |
|---|---|---|---|---|---|---|
| docker-manager.js:161 | the type is looked up on a plain object literal and the default is used only when that lookup is falsy, so a name inherited from `Object.prototype` finds a function rather than falling back | instanceType = "toString" | every unlisted type falls back to the '24v64g' entry (2 GiB, 1024 shares) | not executed | Docker.InheritedNameEscapesDefault | Docker.ResourceConfigUniform |
