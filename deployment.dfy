/**
 * `VllmDeployment`: the `docker run` command built from the deployment
 * configuration, the container lifecycle over the Docker command line, and the
 * health wait against the clock.
 */
module Deployment {
  import opened Wrappers
  import opened Text
  import opened JsonValue
  import opened Host

  /**
   * The `deployment` section of the configuration file. `gpuMemoryUtilization`
   * is the text `str()` gives for the configured number; an absent or empty
   * parser name is "".
   */
  datatype DeploymentConfig = DeploymentConfig(
    containerName: string,
    port: int,
    gpus: string,
    shmSize: string,
    volumes: seq<string>,
    dockerImage: string,
    model: string,
    gpuMemoryUtilization: string,
    maxModelLen: int,
    trustRemoteCode: Json,
    enableReasoning: Json,
    toolCallParser: string,
    reasoningParser: string)

  function PortText(c: DeploymentConfig): string
  {
    IntToString(c.port)
  }

  /** The mandatory flags that open the command. */
  function Prefix(c: DeploymentConfig): seq<string>
  {
    ["docker", "run", "--gpus", c.gpus, "-p", PortText(c) + ":" + PortText(c),
     "--name", c.containerName, "-d", "--shm-size", c.shmSize]
  }

  /** One `-v <volume>` pair per volume, in order. */
  function VolumeArgs(volumes: seq<string>): (args: seq<string>)
    ensures |args| == 2 * |volumes|
    ensures forall i :: 0 <= i < |volumes| ==> args[2 * i] == "-v" && args[2 * i + 1] == volumes[i]
  {
    if volumes == [] then []
    else VolumeArgs(volumes[..|volumes| - 1]) + ["-v", volumes[|volumes| - 1]]
  }

  /** The model flags that follow the image. */
  function ModelArgs(c: DeploymentConfig): seq<string>
  {
    ["--port", PortText(c), "--model", c.model,
     "--gpu-memory-utilization", c.gpuMemoryUtilization, "--max-model-len", IntToString(c.maxModelLen)]
  }

  /** `--trust-remote-code` when its value is truthy. */
  function TrustFlag(c: DeploymentConfig): seq<string>
  {
    if Truthy(c.trustRemoteCode) then ["--trust-remote-code"] else []
  }

  /** `--enable-reasoning` when its value is truthy. */
  function ReasoningFlag(c: DeploymentConfig): seq<string>
  {
    if Truthy(c.enableReasoning) then ["--enable-reasoning"] else []
  }

  /** `--tool-call-parser <name>` when a name is given. */
  function ToolFlag(c: DeploymentConfig): seq<string>
  {
    if c.toolCallParser != "" then ["--tool-call-parser", c.toolCallParser] else []
  }

  /** `--reasoning-parser <name>` when a name is given. */
  function ParserFlag(c: DeploymentConfig): seq<string>
  {
    if c.reasoningParser != "" then ["--reasoning-parser", c.reasoningParser] else []
  }

  /** The optional flags in the order they are appended. */
  function OptionalArgs(c: DeploymentConfig): seq<string>
  {
    TrustFlag(c) + ReasoningFlag(c) + ToolFlag(c) + ParserFlag(c)
  }

  /** The command `build_docker_command` returns. */
  function DockerCommand(c: DeploymentConfig): seq<string>
  {
    Prefix(c) + VolumeArgs(c.volumes) + [c.dockerImage] + ModelArgs(c) + OptionalArgs(c)
  }

  /** Where each part of the command sits. */
  lemma DockerCommandLayout(c: DeploymentConfig)
    ensures var cmd, n := DockerCommand(c), |c.volumes|;
      && |cmd| == 20 + 2 * n + |OptionalArgs(c)|
      && cmd[..11] == ["docker", "run", "--gpus", c.gpus, "-p", PortText(c) + ":" + PortText(c),
                       "--name", c.containerName, "-d", "--shm-size", c.shmSize]
      && (forall i :: 0 <= i < n ==> cmd[11 + 2 * i] == "-v" && cmd[12 + 2 * i] == c.volumes[i])
      && cmd[11 + 2 * n] == c.dockerImage
      && cmd[12 + 2 * n..20 + 2 * n] == ["--port", PortText(c), "--model", c.model,
                                          "--gpu-memory-utilization", c.gpuMemoryUtilization,
                                          "--max-model-len", IntToString(c.maxModelLen)]
      && cmd[20 + 2 * n..] == OptionalArgs(c)
  {
    var n := |c.volumes|;
    var vs := VolumeArgs(c.volumes);
    PartsOfFive(Prefix(c), vs, [c.dockerImage], ModelArgs(c), OptionalArgs(c));
    var cmd := DockerCommand(c);
    forall i | 0 <= i < n ensures cmd[11 + 2 * i] == "-v" && cmd[12 + 2 * i] == c.volumes[i] {
      assert cmd[11 + 2 * i] == vs[2 * i] && cmd[12 + 2 * i] == vs[2 * i + 1];
    }
  }

  /** Where each of five concatenated pieces sits. */
  lemma PartsOfFive<T>(a: seq<T>, b: seq<T>, c: seq<T>, d: seq<T>, e: seq<T>)
    ensures var x, p, q, r, t := a + b + c + d + e, |a|, |a| + |b|, |a| + |b| + |c|, |a| + |b| + |c| + |d|;
      && |x| == t + |e|
      && x[..p] == a
      && (forall i :: 0 <= i < |b| ==> x[p + i] == b[i])
      && x[q..r] == c
      && x[r..t] == d
      && x[t..] == e
  {
    var x, p, q, r, t := a + b + c + d + e, |a|, |a| + |b|, |a| + |b| + |c|, |a| + |b| + |c| + |d|;
    assert x == a + (b + (c + (d + e)));
    assert x[q..r] == c by { assert x[q..] == c + (d + e); }
    assert x[r..t] == d by { assert x[r..] == d + e; }
  }

  /** Reads a leading `flag`: whether it is there, and what follows it. */
  function ReadFlag(args: seq<string>, flag: string): (bool, seq<string>)
  {
    if |args| > 0 && args[0] == flag then (true, args[1..]) else (false, args)
  }

  /** Reads a leading `flag` with its value: the value ("" when absent), and what follows. */
  function ReadPair(args: seq<string>, flag: string): (string, seq<string>)
  {
    if |args| >= 2 && args[0] == flag then (args[1], args[2..]) else ("", args)
  }

  /** The optional flags read back, in their fixed order: the flags present and the two parser names. */
  function ReadOptional(args: seq<string>): (bool, bool, string, string)
  {
    var (trust, a1) := ReadFlag(args, "--trust-remote-code");
    var (reasoning, a2) := ReadFlag(a1, "--enable-reasoning");
    var (tool, a3) := ReadPair(a2, "--tool-call-parser");
    var (parser, _) := ReadPair(a3, "--reasoning-parser");
    (trust, reasoning, tool, parser)
  }

  /** The four optional flag names differ from one another. */
  lemma FlagNamesDistinct()
    ensures "--trust-remote-code" != "--enable-reasoning"
    ensures "--trust-remote-code" != "--tool-call-parser" && "--trust-remote-code" != "--reasoning-parser"
    ensures "--enable-reasoning" != "--tool-call-parser" && "--enable-reasoning" != "--reasoning-parser"
    ensures "--tool-call-parser" != "--reasoning-parser"
  {
    assert |"--trust-remote-code"| == 19 && |"--enable-reasoning"| == 18;
    assert "--tool-call-parser"[2] == 't' && "--reasoning-parser"[2] == 'r' && "--enable-reasoning"[2] == 'e';
  }

  /** A flag written in front of `rest` is read back exactly when it was written, leaving `rest`. */
  lemma ReadFlagWritten(present: bool, flag: string, rest: seq<string>)
    requires |rest| > 0 ==> rest[0] != flag
    ensures ReadFlag((if present then [flag] else []) + rest, flag) == (present, rest)
  {
    if present {
      assert ([flag] + rest)[1..] == rest;
    } else {
      assert [] + rest == rest;
    }
  }

  /** A flag and a non-empty value written in front of `rest` are read back, leaving `rest`; "" writes nothing. */
  lemma ReadPairWritten(value: string, flag: string, rest: seq<string>)
    requires |rest| > 0 ==> rest[0] != flag
    ensures ReadPair((if value != "" then [flag, value] else []) + rest, flag) == (value, rest)
  {
    if value != "" {
      assert ([flag, value] + rest)[2..] == rest;
    } else {
      assert [] + rest == rest;
    }
  }

  /** The first flag read from the optional flags: `--trust-remote-code`. */
  lemma ReadTrust(c: DeploymentConfig)
    ensures var t, e, p, r := TrustFlag(c), ReasoningFlag(c), ToolFlag(c), ParserFlag(c);
      ReadFlag(OptionalArgs(c), "--trust-remote-code") == (Truthy(c.trustRemoteCode), e + (p + r))
  {
    var t, e, p, r := TrustFlag(c), ReasoningFlag(c), ToolFlag(c), ParserFlag(c);
    FlagNamesDistinct();
    assert OptionalArgs(c) == t + (e + (p + r));
    var epr := e + (p + r);
    assert |epr| > 0 ==> epr[0] in {"--enable-reasoning", "--tool-call-parser", "--reasoning-parser"};
    ReadFlagWritten(Truthy(c.trustRemoteCode), "--trust-remote-code", epr);
  }

  /** The second flag read: `--enable-reasoning`. */
  lemma ReadReasoning(c: DeploymentConfig)
    ensures var t, e, p, r := TrustFlag(c), ReasoningFlag(c), ToolFlag(c), ParserFlag(c);
      ReadFlag(e + (p + r), "--enable-reasoning") == (Truthy(c.enableReasoning), p + r)
  {
    var t, e, p, r := TrustFlag(c), ReasoningFlag(c), ToolFlag(c), ParserFlag(c);
    FlagNamesDistinct();
    var pr := p + r;
    assert |pr| > 0 ==> pr[0] in {"--tool-call-parser", "--reasoning-parser"};
    ReadFlagWritten(Truthy(c.enableReasoning), "--enable-reasoning", pr);
  }

  /** The third flag read: `--tool-call-parser` with its value. */
  lemma ReadTool(c: DeploymentConfig)
    ensures var t, e, p, r := TrustFlag(c), ReasoningFlag(c), ToolFlag(c), ParserFlag(c);
      ReadPair(p + r, "--tool-call-parser") == (c.toolCallParser, r)
  {
    var t, e, p, r := TrustFlag(c), ReasoningFlag(c), ToolFlag(c), ParserFlag(c);
    FlagNamesDistinct();
    ReadPairWritten(c.toolCallParser, "--tool-call-parser", r);
  }

  /** The last flag read: `--reasoning-parser` with its value. */
  lemma ReadParser(c: DeploymentConfig)
    ensures var t, e, p, r := TrustFlag(c), ReasoningFlag(c), ToolFlag(c), ParserFlag(c);
      ReadPair(r, "--reasoning-parser").0 == c.reasoningParser
  {
    var t, e, p, r := TrustFlag(c), ReasoningFlag(c), ToolFlag(c), ParserFlag(c);
    ReadPairWritten(c.reasoningParser, "--reasoning-parser", []);
    assert r + [] == r;
  }

  /** Each optional flag is present exactly when its value is truthy, and the parser names come through. */
  lemma OptionalArgsRoundTrip(c: DeploymentConfig)
    ensures ReadOptional(OptionalArgs(c))
         == (Truthy(c.trustRemoteCode), Truthy(c.enableReasoning), c.toolCallParser, c.reasoningParser)
  {
    ReadTrust(c);
    ReadReasoning(c);
    ReadTool(c);
    ReadParser(c);
  }

  /** The command split the way `build_docker_command` appends it: the fixed part, then each optional flag. */
  lemma CommandAppends(c: DeploymentConfig)
    ensures var t, e, p, r := TrustFlag(c), ReasoningFlag(c), ToolFlag(c), ParserFlag(c);
      DockerCommand(c) == Prefix(c) + VolumeArgs(c.volumes) + [c.dockerImage] + ModelArgs(c) + t + e + p + r
  {
    var h := Prefix(c) + VolumeArgs(c.volumes) + [c.dockerImage] + ModelArgs(c);
    var t, e, p, r := TrustFlag(c), ReasoningFlag(c), ToolFlag(c), ParserFlag(c);
    assert h + (t + e + p + r) == h + t + e + p + r;
  }

  /** `build_docker_command`: mandatory flags, then one pair per volume, the image, and the model flags. */
  method BuildDockerCommand(c: DeploymentConfig) returns (cmd: seq<string>)
    ensures cmd == DockerCommand(c)
  {
    cmd := ["docker", "run", "--gpus", c.gpus, "-p", PortText(c) + ":" + PortText(c),
            "--name", c.containerName, "-d", "--shm-size", c.shmSize];
    var i := 0;
    while i < |c.volumes|
      invariant 0 <= i <= |c.volumes|
      invariant cmd == Prefix(c) + VolumeArgs(c.volumes[..i])
    {
      assert c.volumes[..i + 1][..i] == c.volumes[..i];
      cmd := cmd + ["-v", c.volumes[i]];
      i := i + 1;
    }
    assert c.volumes[..i] == c.volumes;
    cmd := cmd + [c.dockerImage];
    cmd := cmd + ["--port", PortText(c), "--model", c.model,
                  "--gpu-memory-utilization", c.gpuMemoryUtilization, "--max-model-len", IntToString(c.maxModelLen)];
    ghost var head := cmd;
    ghost var t, e, p, r := TrustFlag(c), ReasoningFlag(c), ToolFlag(c), ParserFlag(c);
    if Truthy(c.trustRemoteCode) {
      cmd := cmd + ["--trust-remote-code"];
    }
    assert cmd == head + t;
    if Truthy(c.enableReasoning) {
      cmd := cmd + ["--enable-reasoning"];
    }
    assert cmd == head + t + e;
    if c.toolCallParser != "" {
      cmd := cmd + ["--tool-call-parser", c.toolCallParser];
    }
    assert cmd == head + t + e + p;
    if c.reasoningParser != "" {
      cmd := cmd + ["--reasoning-parser", c.reasoningParser];
    }
    assert cmd == head + t + e + p + r;
    CommandAppends(c);
  }

  /** `get_api_url`. */
  function ApiUrl(c: DeploymentConfig): string
  {
    "http://localhost:" + PortText(c) + "/v1/chat/completions"
  }

  /** The URL `wait_for_health` polls. */
  function HealthUrl(c: DeploymentConfig): string
  {
    "http://localhost:" + PortText(c) + "/health"
  }

  /** `get_model_id`. */
  function ModelId(c: DeploymentConfig): string
  {
    c.model
  }

  /** The endpoint URLs use the port the server is started on, and the model id is the model it serves. */
  lemma EndpointsMatchCommand(c: DeploymentConfig)
    ensures var cmd, n := DockerCommand(c), |c.volumes|;
      && cmd[12 + 2 * n] == "--port" && ApiUrl(c) == "http://localhost:" + cmd[13 + 2 * n] + "/v1/chat/completions"
      && HealthUrl(c) == "http://localhost:" + cmd[13 + 2 * n] + "/health"
      && cmd[14 + 2 * n] == "--model" && cmd[15 + 2 * n] == ModelId(c)
  {
    DockerCommandLayout(c);
    var n := |c.volumes|;
    assert DockerCommand(c)[12 + 2 * n..20 + 2 * n][1] == DockerCommand(c)[13 + 2 * n];
    assert DockerCommand(c)[12 + 2 * n..20 + 2 * n][3] == DockerCommand(c)[15 + 2 * n];
  }

  function PsCommand(name: string): seq<string>
  {
    ["docker", "ps", "--filter", "name=" + name, "--format", "{{.Names}}"]
  }

  function StopCommand(name: string): seq<string> { ["docker", "stop", name] }

  function RmCommand(name: string): seq<string> { ["docker", "rm", name] }

  /** `docker ps` succeeded and its output mentions the container name. */
  predicate Running(name: string, r: Reply)
  {
    r.exitCode == 0 && Contains(r.stdout, name)
  }

  /** The commands `stop_container` issues when the next command is the `n`-th: `rm` only after `stop` succeeded. */
  function StopCommands(name: string, reply: nat -> Reply, n: nat): seq<seq<string>>
  {
    [StopCommand(name)] + (if reply(n).exitCode == 0 then [RmCommand(name)] else [])
  }

  /** What `stop_container` returns. */
  predicate StopSucceeds(reply: nat -> Reply, n: nat)
  {
    reply(n).exitCode == 0 && reply(n + 1).exitCode == 0
  }

  /** `stop_container` succeeds exactly when both commands were issued and both exited with 0; `rm` follows only a successful `stop`. */
  lemma StopContract(name: string, reply: nat -> Reply, n: nat)
    ensures var cmds := StopCommands(name, reply, n);
      && (StopSucceeds(reply, n) <==> cmds == [StopCommand(name), RmCommand(name)] && reply(n + 1).exitCode == 0)
      && (RmCommand(name) in cmds <==> reply(n).exitCode == 0)
  {
    var cmds := StopCommands(name, reply, n);
    if reply(n).exitCode == 0 {
      assert cmds[1] == RmCommand(name);
    } else {
      assert cmds == [StopCommand(name)];
      assert StopCommand(name)[1] != RmCommand(name)[1];
      assert cmds != [StopCommand(name), RmCommand(name)];
    }
  }

  /** The commands `start_container` issues when the next command is the `n`-th. */
  function StartCommands(c: DeploymentConfig, reply: nat -> Reply, n: nat): seq<seq<string>>
  {
    var name := c.containerName;
    if !Running(name, reply(n)) then [PsCommand(name), DockerCommand(c)]
    else if !StopSucceeds(reply, n + 1) then [PsCommand(name)] + StopCommands(name, reply, n + 1)
    else [PsCommand(name)] + StopCommands(name, reply, n + 1) + [DockerCommand(c)]
  }

  /** What `start_container` returns. */
  predicate StartSucceeds(c: DeploymentConfig, reply: nat -> Reply, n: nat)
  {
    var name := c.containerName;
    if !Running(name, reply(n)) then reply(n + 1).exitCode == 0
    else StopSucceeds(reply, n + 1) && reply(n + 3).exitCode == 0
  }

  /** The `docker run` command is none of `ps`, `stop` and `rm`. */
  lemma RunIsNoLifecycleCommand(c: DeploymentConfig)
    ensures var run, name := DockerCommand(c), c.containerName;
      run != PsCommand(name) && run != StopCommand(name) && run != RmCommand(name)
  {
    var run := DockerCommand(c);
    assert run[1] == Prefix(c)[1] == "run";
    var name := c.containerName;
    assert PsCommand(name)[1] != run[1] && StopCommand(name)[1] != run[1] && RmCommand(name)[1] != run[1];
  }

  /**
   * `start_container` runs the container unless the running copy could not be
   * stopped, and succeeds exactly when its last command is the run command and
   * that command exited with 0.
   */
  lemma StartContract(c: DeploymentConfig, reply: nat -> Reply, n: nat)
    ensures var cmds := StartCommands(c, reply, n);
      && |cmds| > 0 && cmds[0] == PsCommand(c.containerName)
      && (DockerCommand(c) in cmds <==> !(Running(c.containerName, reply(n)) && !StopSucceeds(reply, n + 1)))
      && (StartSucceeds(c, reply, n) <==>
            cmds[|cmds| - 1] == DockerCommand(c) && reply(n + |cmds| - 1).exitCode == 0)
  {
    var name := c.containerName;
    var cmds := StartCommands(c, reply, n);
    var run := DockerCommand(c);
    RunIsNoLifecycleCommand(c);
    if !Running(name, reply(n)) {
      assert cmds == [PsCommand(name), run];
    } else {
      var stops := StopCommands(name, reply, n + 1);
      assert run !in stops;
      if StopSucceeds(reply, n + 1) {
        assert |stops| == 2;
        assert cmds == [PsCommand(name)] + stops + [run];
      } else {
        assert cmds == [PsCommand(name)] + stops;
        assert run !in cmds;
      }
    }
  }

  /** The state the health loop ends in: its verdict, the number of requests made so far, and the clock. */
  datatype HealthRun = HealthRun(healthy: bool, requests: nat, clock: int)

  /**
   * The health loop from request number `k` at time `t`: stop with False once
   * `t` reaches `deadline`; otherwise poll, stop with True on status 200, and
   * else sleep 5 seconds and go round again.
   */
  function HealthLoop(response: nat -> Response, k: nat, t: int, deadline: int): (h: HealthRun)
    ensures h.requests >= k && h.clock >= t
    ensures !h.healthy ==> h.clock >= deadline
    decreases deadline - t
  {
    if t >= deadline then HealthRun(false, k, t)
    else
      var r := response(k);
      if r.status == Some(200) then HealthRun(true, k + 1, t + r.took)
      else HealthLoop(response, k + 1, t + r.took + 5, deadline)
  }

  /** When the `j`-th poll from request `k` at time `t` would start, if no earlier one succeeded. */
  function PollStart(response: nat -> Response, k: nat, t: int, j: nat): (s: int)
    ensures s >= t
    decreases j
  {
    if j == 0 then t else PollStart(response, k + 1, t + response(k).took + 5, j - 1)
  }

  /** A poll that starts before the deadline and gets status 200 makes the wait succeed. */
  lemma {:induction false} HealthyFromPoll(response: nat -> Response, k: nat, t: int, deadline: int, j: nat)
    requires PollStart(response, k, t, j) < deadline && response(k + j).status == Some(200)
    ensures HealthLoop(response, k, t, deadline).healthy
    decreases j
  {
    if j > 0 && response(k).status != Some(200) {
      HealthyFromPoll(response, k + 1, t + response(k).took + 5, deadline, j - 1);
    }
  }

  /** A successful wait had a poll that started before the deadline and got status 200. */
  lemma {:induction false} PollFromHealthy(response: nat -> Response, k: nat, t: int, deadline: int) returns (j: nat)
    requires HealthLoop(response, k, t, deadline).healthy
    ensures PollStart(response, k, t, j) < deadline && response(k + j).status == Some(200)
    decreases deadline - t
  {
    if response(k).status == Some(200) {
      j := 0;
    } else {
      assert t < deadline;
      var j' := PollFromHealthy(response, k + 1, t + response(k).took + 5, deadline);
      j := j' + 1;
    }
  }

  /** A wait with no time left makes no request and fails. */
  lemma NoTimeNoPoll(response: nat -> Response, k: nat, t: int, deadline: int)
    requires deadline <= t
    ensures HealthLoop(response, k, t, deadline) == HealthRun(false, k, t)
  {
  }

  /** `n` copies of `x`. */
  function Repeat(x: string, n: nat): (r: seq<string>)
    ensures |r| == n && forall i :: 0 <= i < n ==> r[i] == x
  {
    if n == 0 then [] else Repeat(x, n - 1) + [x]
  }

  /**
   * What `deploy` does to the health endpoint and the clock, starting with the
   * n-th command and the k-th request at time t: nothing when the container does
   * not start, otherwise the health loop with its 300-second timeout.
   */
  function DeployRun(c: DeploymentConfig, reply: nat -> Reply, n: nat, response: nat -> Response, k: nat, t: int): (d: HealthRun)
    ensures d.requests >= k
    ensures d.healthy ==> StartSucceeds(c, reply, n)
    ensures !StartSucceeds(c, reply, n) ==> !d.healthy && d.requests == k && d.clock == t
  {
    if StartSucceeds(c, reply, n) then HealthLoop(response, k, t, t + 300) else HealthRun(false, k, t)
  }

  class VllmDeployment {
    const config: DeploymentConfig
    const host: Machine

    constructor(config: DeploymentConfig, host: Machine)
      ensures this.config == config && this.host == host
    {
      this.config := config;
      this.host := host;
    }

    /** `is_container_running`: False also when `docker ps` fails. */
    method IsContainerRunning() returns (running: bool)
      modifies host
      ensures running == Running(config.containerName, host.reply(|old(host.issued)|))
      ensures host.issued == old(host.issued) + [PsCommand(config.containerName)]
      ensures host.clock == old(host.clock) && host.requested == old(host.requested)
    {
      var r := host.Run(PsCommand(config.containerName));
      running := Running(config.containerName, r);
    }

    /** `stop_container`: `docker stop`, then `docker rm` only if the stop succeeded. */
    method StopContainer() returns (ok: bool)
      modifies host
      ensures ok == StopSucceeds(host.reply, |old(host.issued)|)
      ensures host.issued == old(host.issued) + StopCommands(config.containerName, host.reply, |old(host.issued)|)
      ensures host.clock == old(host.clock) && host.requested == old(host.requested)
    {
      var stopped := host.Run(StopCommand(config.containerName));
      if stopped.exitCode != 0 {
        return false;
      }
      var removed := host.Run(RmCommand(config.containerName));
      ok := removed.exitCode == 0;
    }

    /** `start_container`: stop a running copy first, give up if that fails, then run the container. */
    method StartContainer() returns (ok: bool)
      modifies host
      ensures ok == StartSucceeds(config, host.reply, |old(host.issued)|)
      ensures host.issued == old(host.issued) + StartCommands(config, host.reply, |old(host.issued)|)
      ensures host.clock == old(host.clock) && host.requested == old(host.requested)
    {
      var running := IsContainerRunning();
      if running {
        var stopped := StopContainer();
        if !stopped {
          return false;
        }
      }
      var cmd := BuildDockerCommand(config);
      var r := host.Run(cmd);
      ok := r.exitCode == 0;
    }

    /** `wait_for_health`: poll the health URL every 5 seconds until it answers 200 or `timeout` seconds have passed. */
    method WaitForHealth(timeout: int) returns (healthy: bool)
      modifies host
      ensures var h := HealthLoop(host.response, |old(host.requested)|, old(host.clock), old(host.clock) + timeout);
        && healthy == h.healthy
        && host.clock == h.clock
        && host.requested == old(host.requested) + Repeat(HealthUrl(config), h.requests - |old(host.requested)|)
      ensures host.issued == old(host.issued)
    {
      var url := HealthUrl(config);
      var start := host.Now();
      ghost var n0 := |host.requested|;
      ghost var outcome := HealthLoop(host.response, n0, start, start + timeout);
      var t := host.Now();
      while t - start < timeout
        invariant t == host.clock
        invariant |host.requested| >= n0
        invariant HealthLoop(host.response, |host.requested|, t, start + timeout) == outcome
        invariant host.requested == old(host.requested) + Repeat(url, |host.requested| - n0)
        invariant host.issued == old(host.issued)
        decreases start + timeout - t
      {
        ghost var before := host.requested;
        var status := host.Get(url);
        assert Repeat(url, |host.requested| - n0) == Repeat(url, |before| - n0) + [url];
        if status == Some(200) {
          return true;
        }
        host.Sleep(5);
        t := host.Now();
      }
      healthy := false;
    }

    /** `deploy`: start the container, and only if that worked wait for it to become healthy. */
    method Deploy() returns (ok: bool)
      modifies host
      ensures host.issued == old(host.issued) + StartCommands(config, host.reply, |old(host.issued)|)
      ensures var d := DeployRun(config, host.reply, |old(host.issued)|, host.response, |old(host.requested)|, old(host.clock));
        && ok == d.healthy
        && host.clock == d.clock
        && host.requested == old(host.requested) + Repeat(HealthUrl(config), d.requests - |old(host.requested)|)
    {
      var started := StartContainer();
      if !started {
        return false;
      }
      ok := WaitForHealth(300);
    }

    /** `cleanup` is `stop_container`. */
    method Cleanup() returns (ok: bool)
      modifies host
      ensures ok == StopSucceeds(host.reply, |old(host.issued)|)
      ensures host.issued == old(host.issued) + StopCommands(config.containerName, host.reply, |old(host.issued)|)
      ensures host.clock == old(host.clock) && host.requested == old(host.requested)
    {
      ok := StopContainer();
    }
  }
}
