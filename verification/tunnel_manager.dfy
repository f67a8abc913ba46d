/**
 * The tunnel side of instance provisioning (tunnel-manager.js): recognising
 * the public quick-tunnel URL in cloudflared's output, deciding which error
 * output is fatal, the readiness probe loop, and the registry of open
 * tunnels keyed `vnc-<instanceId>`. The cloudflared process and the HTTP
 * probes are replaced by what they produced: a sequence of process events
 * and a sequence of probe answers.
 */
module Tunnel {
  import opened Wrappers
  import opened Text

  const TunnelIdPrefix: string := "vnc-"
  const UrlScheme: string := "https://"
  const UrlSuffix: string := ".trycloudflare.com"
  const CreateFailedPrefix: string := "创建Cloudflare隧道失败: "

  /** The three error phrases that abort tunnel creation. */
  const EdgeFailurePhrase: string := "failed to connect to the edge"
  const AuthenticationPhrase: string := "authentication required"
  const LoginPhrase: string := "login required"

  // ---------------------------------------------------------------------------
  // The tunnel URL pattern /https:\/\/[a-zA-Z0-9-]+\.trycloudflare\.com/
  // ---------------------------------------------------------------------------

  predicate IsLabelChar(c: char) {
    ('a' <= c <= 'z') || ('A' <= c <= 'Z') || ('0' <= c <= '9') || c == '-'
  }

  predicate IsLabel(s: string) {
    |s| > 0 && forall i | 0 <= i < |s| :: IsLabelChar(s[i])
  }

  /** `scheme`, then a non-empty label, then `suffix`. */
  predicate IsUrlWith(u: string, scheme: string, suffix: string) {
    && |u| > |scheme| + |suffix|
    && u[..|scheme|] == scheme
    && u[|u| - |suffix|..] == suffix
    && IsLabel(u[|scheme|..|u| - |suffix|])
  }

  /** A string the pattern matches in full: scheme, a non-empty label, suffix. */
  predicate IsTunnelUrl(u: string) {
    IsUrlWith(u, UrlScheme, UrlSuffix)
  }

  /** End of the longest run of label characters in `s` starting at `j`. */
  function LabelEnd(s: string, j: nat): (e: nat)
    requires j <= |s|
    ensures j <= e <= |s|
    ensures forall k | j <= k < e :: IsLabelChar(s[k])
    ensures e < |s| ==> !IsLabelChar(s[e])
    decreases |s| - j
  {
    if j < |s| && IsLabelChar(s[j]) then LabelEnd(s, j + 1) else j
  }

  /** A run of label characters from `j` ended by a non-label character ends exactly there. */
  lemma LabelEndAt(s: string, j: nat, e: nat)
    requires j <= e < |s|
    requires forall k | j <= k < e :: IsLabelChar(s[k])
    requires !IsLabelChar(s[e])
    ensures LabelEnd(s, j) == e
  {
  }

  /**
   * The match at position `i` of `s` of `scheme`, a label run, then
   * `suffix`, if any. The label class excludes the first character of the
   * suffix, so a match must take the longest label run: backtracking to a
   * shorter run would leave a label character where the suffix must start.
   */
  function MatchWith(s: string, i: nat, scheme: string, suffix: string): (m: Option<string>)
    requires i <= |s|
    ensures m.Some? ==> IsUrlWith(m.value, scheme, suffix) && i + |m.value| <= |s| && s[i..i + |m.value|] == m.value
  {
    if StartsWith(s[i..], scheme) then
      var e := LabelEnd(s, i + |scheme|);
      if e > i + |scheme| && StartsWith(s[e..], suffix) then
        AssembledUrl(s, i, e, scheme, suffix);
        Some(s[i..e + |suffix|])
      else
        None
    else
      None
  }

  /** Scheme at `i`, a label run up to `e`, then the suffix: together a URL of that shape. */
  lemma AssembledUrl(s: string, i: nat, e: nat, scheme: string, suffix: string)
    requires i <= |s| && StartsWith(s[i..], scheme)
    requires i + |scheme| < e <= |s|
    requires forall k | i + |scheme| <= k < e :: IsLabelChar(s[k])
    requires StartsWith(s[e..], suffix)
    ensures IsUrlWith(s[i..e + |suffix|], scheme, suffix)
  {
    var u := s[i..e + |suffix|];
    assert u[..|scheme|] == s[i..][..|scheme|];
    assert u[|u| - |suffix|..] == s[e..][..|suffix|];
    var host := u[|scheme|..|u| - |suffix|];
    forall k | 0 <= k < |host| ensures IsLabelChar(host[k]) {
      assert host[k] == s[i + |scheme| + k];
    }
  }

  /** Where `scheme`, a label and `suffix` start at `i`, the match is exactly that URL. */
  lemma MatchWithRecognizes(s: string, i: nat, scheme: string, host: string, suffix: string)
    requires IsLabel(host) && suffix != [] && !IsLabelChar(suffix[0])
    requires i + |scheme + host + suffix| <= |s|
    requires s[i..i + |scheme + host + suffix|] == scheme + host + suffix
    ensures MatchWith(s, i, scheme, suffix) == Some(scheme + host + suffix)
  {
    var url := scheme + host + suffix;
    var start := i + |scheme|;
    var stop := start + |host|;
    forall k | start <= k < stop ensures IsLabelChar(s[k]) {
      assert s[k] == url[k - i] == host[k - start];
    }
    assert s[stop] == url[stop - i] == suffix[0];
    LabelEndAt(s, start, stop);
    assert s[i..][..|scheme|] == url[..|scheme|];
    assert s[stop..][..|suffix|] == url[|scheme| + |host|..];
  }

  /** The match of the tunnel URL pattern at position `i` of `s`, if any. */
  function MatchAt(s: string, i: nat): (m: Option<string>)
    requires i <= |s|
    ensures m.Some? ==> IsTunnelUrl(m.value) && i + |m.value| <= |s| && s[i..i + |m.value|] == m.value
  {
    MatchWith(s, i, UrlScheme, UrlSuffix)
  }

  /** The leftmost position at or after `from` where the pattern matches. */
  function FirstMatchFrom(s: string, from: nat): (r: Option<nat>)
    requires from <= |s|
    ensures r.Some? ==> from <= r.value <= |s| && MatchAt(s, r.value).Some?
    ensures r.Some? ==> forall j | from <= j < r.value :: MatchAt(s, j).None?
    ensures r.None? ==> forall j | from <= j <= |s| :: MatchAt(s, j).None?
    decreases |s| - from
  {
    if MatchAt(s, from).Some? then Some(from)
    else if from == |s| then None
    else FirstMatchFrom(s, from + 1)
  }

  /** `output.match(pattern)`: the leftmost match in one chunk of output. */
  function FindTunnelUrl(output: string): (url: Option<string>)
    ensures url.Some? ==> IsTunnelUrl(url.value)
  {
    match FirstMatchFrom(output, 0)
    case Some(i) => MatchAt(output, i)
    case None => None
  }

  /** Where a well-formed tunnel URL starts, the pattern matches exactly that URL. */
  lemma MatchAtRecognizes(s: string, i: nat, host: string)
    requires IsLabel(host)
    requires i + |UrlScheme + host + UrlSuffix| <= |s|
    requires s[i..i + |UrlScheme + host + UrlSuffix|] == UrlScheme + host + UrlSuffix
    ensures MatchAt(s, i) == Some(UrlScheme + host + UrlSuffix)
  {
    assert UrlSuffix[0] == '.';
    MatchWithRecognizes(s, i, UrlScheme, host, UrlSuffix);
  }

  /** Any chunk holding a well-formed tunnel URL yields a URL, found at or before it. */
  lemma FindTunnelUrlComplete(output: string, i: nat, host: string)
    requires IsLabel(host)
    requires i + |UrlScheme + host + UrlSuffix| <= |output|
    requires output[i..i + |UrlScheme + host + UrlSuffix|] == UrlScheme + host + UrlSuffix
    ensures FindTunnelUrl(output).Some?
    ensures FirstMatchFrom(output, 0).Some? && FirstMatchFrom(output, 0).value <= i
  {
    MatchAtRecognizes(output, i, host);
  }

  // ---------------------------------------------------------------------------
  // Classification of error output
  // ---------------------------------------------------------------------------

  /** A chunk that names one of the three fatal conditions. */
  predicate IsFatalStderr(output: string) {
    || Contains(output, EdgeFailurePhrase)
    || Contains(output, AuthenticationPhrase)
    || Contains(output, LoginPhrase)
  }

  /** The outer test of the source: a chunk that looks like any kind of error. */
  predicate MentionsError(output: string) {
    IsFatalStderr(output) || Contains(output, "error=") || Contains(output, "ERR ")
  }

  /**
   * The abort condition exactly as nested in the source: it looks like an
   * error, it is one of the fatal ones, and no URL has been seen yet.
   */
  predicate StderrAborts(output: string, urlFound: bool) {
    MentionsError(output) && IsFatalStderr(output) && !urlFound
  }

  /**
   * Only the three fatal phrases abort, and only before a URL was found:
   * 'error=' or 'ERR ' alone never do.
   */
  lemma StderrAbortsOnlyOnFatal(output: string, urlFound: bool)
    ensures StderrAborts(output, urlFound) <==> IsFatalStderr(output) && !urlFound
    ensures !IsFatalStderr(output) ==> !StderrAborts(output, urlFound)
  {
  }

  // ---------------------------------------------------------------------------
  // Starting the cloudflared process
  // ---------------------------------------------------------------------------

  /** The argument vector for cloudflared; both branches of the source build the same one. */
  function CloudflaredArgs(tunnelName: string, localPort: int): (args: seq<string>)
    ensures |args| == 6 && args[0] == "tunnel" && args[1] == "--url"
    ensures args[2] == "http://localhost:" + IntString(localPort)
  {
    if tunnelName == "machine-manager" then
      ["tunnel", "--url", "http://localhost:" + IntString(localPort), "--no-autoupdate", "--logfile", "/dev/null"]
    else
      ["tunnel", "--url", "http://localhost:" + IntString(localPort), "--no-autoupdate", "--logfile", "/dev/null"]
  }

  /** The tunnel name does not influence how cloudflared is started. */
  lemma CloudflaredArgsIgnoreName(name1: string, name2: string, localPort: int)
    ensures CloudflaredArgs(name1, localPort) == CloudflaredArgs(name2, localPort)
  {
  }

  /** One event of the spawned process, in the order the event loop delivers them. */
  datatype TunnelEvent =
    | Stdout(text: string)          // a chunk on standard output
    | Stderr(text: string)          // a chunk on standard error
    | Closed(code: Option<int>)     // 'close': the exit code, None when ended by a signal
    | SpawnError(message: string)   // 'error': the process could not be run

  /** Why `startTunnel` rejects. */
  datatype StartError =
    | EdgeFailure(output: string)
    | ProcessExited(code: Option<int>, stdout: string, stderr: string)
    | SpawnFailed(message: string)
    | UrlTimeout                    // 30 s passed without a URL

  /** The state of the promise `startTunnel` returns. */
  datatype Settlement = Pending | Resolved(url: string) | Rejected(error: StartError)

  /** What one event does while the promise is pending: settle it, or go on with the grown output. */
  datatype Step = Settles(result: Settlement) | Continues(stdOutput: string, errorOutput: string)

  /**
   * The handlers for one event, while no URL has been found yet. The URL
   * test on an error chunk runs before the fatal-phrase test.
   */
  function StepOn(event: TunnelEvent, stdOutput: string, errorOutput: string): (step: Step)
    ensures step.Settles? ==> !step.result.Pending?
    ensures step.Settles? && step.result.Resolved? ==> IsTunnelUrl(step.result.url)
    ensures step.Settles? && step.result.Rejected? && step.result.error.EdgeFailure? ==>
              event.Stderr? && IsFatalStderr(step.result.error.output)
    ensures event.Closed? || event.SpawnError? ==> step.Settles? && step.result.Rejected?
    ensures step.Continues? ==> stdOutput <= step.stdOutput && errorOutput <= step.errorOutput
  {
    match event
    case Stdout(text) =>
      var url := FindTunnelUrl(text);
      if url.Some? then Settles(Resolved(url.value)) else Continues(stdOutput + text, errorOutput)
    case Stderr(text) =>
      var url := FindTunnelUrl(text);
      if url.Some? then Settles(Resolved(url.value))
      else if IsFatalStderr(text) then Settles(Rejected(EdgeFailure(text)))
      else Continues(stdOutput, errorOutput + text)
    case Closed(code) => Settles(Rejected(ProcessExited(code, stdOutput, errorOutput)))
    case SpawnError(message) => Settles(Rejected(SpawnFailed(message)))
  }

  /**
   * How the promise settles, given the events still to come and the output
   * accumulated so far: the first event that settles it decides, and a
   * promise settles once, so later events change nothing.
   */
  function Settle(events: seq<TunnelEvent>, stdOutput: string, errorOutput: string): (s: Settlement)
    ensures s.Pending? ==> forall k | 0 <= k < |events| :: events[k].Stdout? || events[k].Stderr?
    decreases |events|
  {
    if events == [] then Pending
    else
      var step := StepOn(events[0], stdOutput, errorOutput);
      if step.Settles? then step.result
      else
        assert forall k | 0 < k < |events| :: events[k] == events[1..][k - 1];
        Settle(events[1..], step.stdOutput, step.errorOutput)
  }

  /**
   * The promise resolves only with a well-formed tunnel URL, and an error
   * chunk rejects it only when it names a fatal condition.
   */
  lemma {:induction false} SettleSound(events: seq<TunnelEvent>, stdOutput: string, errorOutput: string)
    ensures var s := Settle(events, stdOutput, errorOutput);
            && (s.Resolved? ==> IsTunnelUrl(s.url))
            && (s.Rejected? && s.error.EdgeFailure? ==> IsFatalStderr(s.error.output))
    decreases |events|
  {
    if events != [] {
      var step := StepOn(events[0], stdOutput, errorOutput);
      if step.Continues? {
        SettleSound(events[1..], step.stdOutput, step.errorOutput);
      }
    }
  }

  /** Once the promise has settled on some events, further events leave it as it is. */
  lemma {:induction false} SettleLatches(settled: seq<TunnelEvent>, later: seq<TunnelEvent>, stdOutput: string, errorOutput: string)
    requires !Settle(settled, stdOutput, errorOutput).Pending?
    ensures Settle(settled + later, stdOutput, errorOutput) == Settle(settled, stdOutput, errorOutput)
    decreases |settled|
  {
    assert (settled + later)[0] == settled[0];
    assert (settled + later)[1..] == settled[1..] + later;
    var step := StepOn(settled[0], stdOutput, errorOutput);
    if step.Continues? {
      SettleLatches(settled[1..], later, step.stdOutput, step.errorOutput);
    }
  }

  /** Output chunks without a fatal phrase never reject, whatever else they say. */
  lemma {:induction false} NonFatalOutputNeverRejects(events: seq<TunnelEvent>, stdOutput: string, errorOutput: string)
    requires forall k | 0 <= k < |events| :: events[k].Stdout? || (events[k].Stderr? && !IsFatalStderr(events[k].text))
    ensures !Settle(events, stdOutput, errorOutput).Rejected?
    decreases |events|
  {
    if events != [] {
      var step := StepOn(events[0], stdOutput, errorOutput);
      if step.Continues? {
        NonFatalOutputNeverRejects(events[1..], step.stdOutput, step.errorOutput);
      }
    }
  }

  /** A chunk carrying both a URL and a fatal phrase resolves: the URL check runs first. */
  lemma UrlBeforeFatalInSameChunk(text: string, later: seq<TunnelEvent>, stdOutput: string, errorOutput: string)
    requires FindTunnelUrl(text).Some? && IsFatalStderr(text)
    ensures Settle([Stderr(text)] + later, stdOutput, errorOutput) == Resolved(FindTunnelUrl(text).value)
  {
  }

  /** Settle on the events from position `i` on, unfolded once. */
  lemma SettleFrom(events: seq<TunnelEvent>, i: nat, stdOutput: string, errorOutput: string)
    requires i < |events|
    ensures var step := StepOn(events[i], stdOutput, errorOutput);
            Settle(events[i..], stdOutput, errorOutput) ==
              if step.Settles? then step.result else Settle(events[i + 1..], step.stdOutput, step.errorOutput)
  {
    assert events[i..][0] == events[i] && events[i..][1..] == events[i + 1..];
  }

  /** The settlement as seen by the caller: the 30 s timer rejects a promise still pending. */
  function StartResult(s: Settlement): Result<string, StartError> {
    match s
    case Resolved(url) => Success(url)
    case Rejected(e) => Failure(e)
    case Pending => Failure(UrlTimeout)
  }

  /** First settlement wins. */
  function SettleOnce(current: Settlement, next: Settlement): Settlement {
    if current.Pending? then next else current
  }

  /**
   * The event handlers of `startTunnel`, run over the events in delivery
   * order: both accumulators grow, `urlFound` latches on the first URL, and
   * the promise settles at most once.
   */
  method StartTunnel(events: seq<TunnelEvent>) returns (r: Result<string, StartError>)
    ensures r == StartResult(Settle(events, "", ""))
    ensures r.Success? ==> IsTunnelUrl(r.value)
  {
    var urlFound := false;
    var stdOutput, errorOutput := "", "";
    var settled := Pending;
    var i := 0;
    while i < |events|
      invariant 0 <= i <= |events|
      invariant urlFound ==> !settled.Pending?
      invariant settled.Pending? ==> Settle(events, "", "") == Settle(events[i..], stdOutput, errorOutput)
      invariant !settled.Pending? ==> settled == Settle(events, "", "")
    {
      SettleFrom(events, i, stdOutput, errorOutput);
      match events[i] {
      case Stdout(text) =>
        stdOutput := stdOutput + text;
        var url := FindTunnelUrl(text);
        if url.Some? && !urlFound {
          urlFound := true;
          settled := SettleOnce(settled, Resolved(url.value));
        }
      case Stderr(text) =>
        errorOutput := errorOutput + text;
        var url := FindTunnelUrl(text);
        if url.Some? && !urlFound {
          urlFound := true;
          settled := SettleOnce(settled, Resolved(url.value));
        }
        if StderrAborts(text, urlFound) {
          settled := SettleOnce(settled, Rejected(EdgeFailure(text)));
        }
      case Closed(code) =>
        if !urlFound {
          settled := SettleOnce(settled, Rejected(ProcessExited(code, stdOutput, errorOutput)));
        }
      case SpawnError(message) =>
        settled := SettleOnce(settled, Rejected(SpawnFailed(message)));
      }
      i := i + 1;
    }
    r := StartResult(settled);
    SettleSound(events, "", "");
  }

  function CodeString(code: Option<int>): string {
    match code
    case Some(c) => IntString(c)
    case None => "null"
  }

  /** The message of the error `startTunnel` rejects with. */
  function StartErrorMessage(e: StartError): (message: string)
    ensures e.EdgeFailure? ==> EndsWith(message, e.output)
    ensures e.ProcessExited? ==> EndsWith(message, e.stderr)
    ensures e.SpawnFailed? ==> EndsWith(message, e.message)
  {
    match e
    case EdgeFailure(output) => "Cloudflare隧道认证失败: " + output
    case ProcessExited(code, out, err) =>
      "隧道进程退出，代码: " + CodeString(code) + ", 标准输出: " + out + ", 错误输出: " + err
    case SpawnFailed(message) => "启动隧道进程失败: " + message
    case UrlTimeout => "等待隧道URL超时（30秒）"
  }

  /** What `cloudflared --version` did. */
  datatype VersionCheck = Available | ExitedNonZero | NotSpawned(message: string)

  function VersionCheckMessage(check: VersionCheck): string {
    match check
    case Available => ""
    case ExitedNonZero => "cloudflared 不可用，请确保已安装 cloudflared"
    case NotSpawned(message) => "cloudflared 执行失败: " + message
  }

  // ---------------------------------------------------------------------------
  // Readiness probing
  // ---------------------------------------------------------------------------

  /** An HTTP probe: the status code it answered, or a thrown error (refused, timed out). */
  datatype Probe = Answered(status: int) | Unreachable

  /** One round of `waitForTunnelReady`: the local port, then (only on 200) the public URL. */
  datatype ReadinessAttempt = ReadinessAttempt(local: Probe, tunnel: Probe)

  predicate AttemptSucceeds(a: ReadinessAttempt) {
    a.local == Answered(200) && a.tunnel == Answered(200)
  }

  /**
   * Probe round after round (the rounds that fit in the 60 s window) until the
   * local port and then the tunnel both answer 200. Never throws: a failed
   * probe only means another round, and running out of rounds gives false.
   */
  method WaitForTunnelReady(attempts: seq<ReadinessAttempt>) returns (ready: bool)
    ensures ready <==> exists k | 0 <= k < |attempts| :: AttemptSucceeds(attempts[k])
  {
    var i := 0;
    while i < |attempts|
      invariant 0 <= i <= |attempts|
      invariant forall k | 0 <= k < i :: !AttemptSucceeds(attempts[k])
    {
      var attempt := attempts[i];
      if attempt.local == Answered(200) {
        if attempt.tunnel == Answered(200) {
          return true;
        }
      }
      i := i + 1;
    }
    return false;
  }

  // ---------------------------------------------------------------------------
  // The tunnel registry
  // ---------------------------------------------------------------------------

  /**
   * What the registry keeps about an open tunnel (the process handle itself is
   * left out); `createdAt` is the ISO-8601 time the entry was made.
   */
  datatype TunnelRecord = TunnelRecord(id: string, instanceId: string, localPort: int, url: string, createdAt: string)

  datatype TunnelHandle = TunnelHandle(id: string, url: string)

  datatype TunnelStatus = TunnelStatus(id: string, instanceId: string, url: string, localPort: int, running: bool,
                                       createdAt: string)

  function TunnelIdOf(instanceId: string): (id: string)
    ensures StartsWith(id, TunnelIdPrefix) && id[|TunnelIdPrefix|..] == instanceId
  {
    TunnelIdPrefix + instanceId
  }

  /** Why `createTunnel` fails, before its own prefix is added; empty when it succeeds. */
  function CreateTunnelError(check: VersionCheck, events: seq<TunnelEvent>): string {
    if !check.Available? then VersionCheckMessage(check)
    else
      match StartResult(Settle(events, "", ""))
      case Failure(e) => StartErrorMessage(e)
      case Success(_) => ""
  }

  class TunnelManager {
    /** Open tunnels by id. */
    var tunnels: map<string, TunnelRecord>

    constructor ()
      ensures tunnels == map[]
    {
      tunnels := map[];
    }

    /**
     * Check that cloudflared runs, start it and wait for its URL, record the
     * tunnel under `vnc-<instanceId>` (replacing any entry with that id), then
     * probe it; the probe outcome does not matter. A failure before the
     * record is made leaves the registry as it was. `createdAt` is the clock
     * reading, as an ISO-8601 string, when the entry is made.
     */
    method CreateTunnel(instanceId: string, localPort: int, check: VersionCheck,
                        events: seq<TunnelEvent>, probes: seq<ReadinessAttempt>, createdAt: string)
      returns (r: Result<TunnelHandle, string>)
      modifies this
      ensures r.Success? <==> check.Available? && Settle(events, "", "").Resolved?
      ensures r.Success? ==>
        && r.value == TunnelHandle(TunnelIdOf(instanceId), Settle(events, "", "").url)
        && IsTunnelUrl(r.value.url)
        && tunnels == old(tunnels)[r.value.id := TunnelRecord(r.value.id, instanceId, localPort, r.value.url, createdAt)]
      ensures r.Failure? ==>
        && r.error == CreateFailedPrefix + CreateTunnelError(check, events)
        && tunnels == old(tunnels)
    {
      var tunnelName := TunnelIdOf(instanceId);
      if !check.Available? {
        return Failure(CreateFailedPrefix + VersionCheckMessage(check));
      }
      var started := StartTunnel(events);
      match started
      case Failure(e) =>
        r := Failure(CreateFailedPrefix + StartErrorMessage(e));
      case Success(url) =>
        tunnels := tunnels[tunnelName := TunnelRecord(tunnelName, instanceId, localPort, url, createdAt)];
        var ready := WaitForTunnelReady(probes);
        r := Success(TunnelHandle(tunnelName, url));
    }

    /** Stop the tunnel's process and drop its entry; an unknown id is skipped. */
    method CloseTunnel(tunnelId: string)
      modifies this
      ensures tunnels == old(tunnels) - {tunnelId}
      ensures tunnelId !in old(tunnels) ==> tunnels == old(tunnels)
    {
      if tunnelId !in tunnels {
        return;
      }
      tunnels := tunnels - {tunnelId};
    }

    /**
     * The stored fields of a tunnel, or None for an unknown id. The process of
     * a recorded tunnel is only killed by CloseTunnel, which drops the entry,
     * so every recorded tunnel reports itself running.
     */
    function GetTunnelStatus(tunnelId: string): (status: Option<TunnelStatus>)
      reads this
      ensures status.None? <==> tunnelId !in tunnels
      ensures status.Some? ==>
        var t := tunnels[tunnelId];
        status.value == TunnelStatus(t.id, t.instanceId, t.url, t.localPort, true, t.createdAt)
    {
      if tunnelId !in tunnels then None
      else
        var t := tunnels[tunnelId];
        Some(TunnelStatus(t.id, t.instanceId, t.url, t.localPort, true, t.createdAt))
    }

    /** Close every open tunnel. */
    method CleanupAllTunnels()
      modifies this
      ensures tunnels == map[]
    {
      while tunnels != map[]
        decreases |tunnels|
      {
        var tunnelId :| tunnelId in tunnels;
        CloseTunnel(tunnelId);
      }
    }
  }
}
