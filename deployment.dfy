/** The deployment stage of buildandreleasetask/deployment.js: the docker strategy builds,
    tags, pushes and deploys an image to a GCP VM, the script strategy runs a deployment
    script on it, and both end by looking up the VM's external address. Each command goes
    through `execWithTimeout`; its outcome comes from an oracle, `oracle(k)` answering the
    k-th command issued (from 0), and the first failing command aborts the rest. */
module Deployment {
  import opened Common

  const DefaultTimeout := 60000
  const BuildTimeout := 300000
  const AuthTimeout := 30000
  const PushTimeout := 300000
  const RemoteTimeout := 300000

  const Registry := "us-central1-docker.pkg.dev"
  const DescribeFormat := "--format='get(networkInterfaces[0].accessConfigs[0].natIP)'"

  /** A command as `execWithTimeout` issues it: its text and its effective deadline in ms. */
  datatype Command = Command(line: string, timeout: nat)

  /** How a command ended: it exited and printed `stdout`, `exec` reported an error, or
      the timer fired first and killed it. */
  datatype ExecOutcome = Exited(stdout: string) | Errored(message: string) | Killed

  /** `options.timeout || 60000`: an absent or zero timeout means one minute. */
  function EffectiveTimeout(requested: Option<nat>): (t: nat)
    ensures t > 0
    ensures requested.Some? && requested.value > 0 ==> t == requested.value
    ensures requested.None? || requested.value == 0 ==> t == DefaultTimeout
  {
    if requested.Some? && requested.value != 0 then requested.value else DefaultTimeout
  }

  function Exec(line: string, requested: Option<nat>): Command
  {
    Command(line, EffectiveTimeout(requested))
  }

  /** The message of the error a failed command rejects with, rethrown unchanged by every caller. */
  function FailureMessage(c: Command, o: ExecOutcome): string
    requires !o.Exited?
  {
    match o
    case Errored(m) => m
    case Killed => "Command timed out after " + NatToString(c.timeout) + "ms: " + c.line
  }

  function UnsupportedMessage(deploymentType: string): string
  {
    "Unsupported deployment type: " + deploymentType + ". Only 'docker' and 'script' are supported."
  }

  // ---------------------------------------------------------------------------
  // Names and commands
  // ---------------------------------------------------------------------------

  function ImageName(buildId: string): string
  {
    "sec1-app:" + buildId
  }

  function ArtifactRegistry(project: string, imageName: string): string
  {
    Registry + "/" + project + "/sec1-public-repo/" + imageName
  }

  /** `http://<trimmed address>:8000` */
  function ApplicationUrl(stdout: string): string
  {
    "http://" + Trim(stdout) + ":8000"
  }

  function BuildCommand(imageName: string): Command
  {
    Exec("docker build -t " + imageName + " .", Some(BuildTimeout))
  }

  function TagCommand(imageName: string, registry: string): Command
  {
    Exec("docker tag " + imageName + " " + registry, None)
  }

  function AuthCommand(): Command
  {
    Exec("gcloud auth configure-docker " + Registry + " --quiet", Some(AuthTimeout))
  }

  function PushCommand(registry: string): Command
  {
    Exec("docker push " + registry, Some(PushTimeout))
  }

  /** `gcloud compute ssh` running `script` from /opt/sec1-app with sudo on the VM. */
  function RemoteCommand(vm: string, zone: string, script: string): Command
  {
    Exec("gcloud compute ssh " + vm + " --zone=" + zone + " --command=\"cd /opt/sec1-app && sudo ./" + script + "\"",
         Some(RemoteTimeout))
  }

  function DescribeCommand(vm: string, zone: string): Command
  {
    Exec("gcloud compute instances describe " + vm + " --zone=" + zone + " " + DescribeFormat, None)
  }

  /** tag, registry auth, push, remote deploy of the registry reference, address lookup. */
  function DockerDeploySteps(imageName: string, project: string, zone: string, vm: string): seq<Command>
  {
    var registry := ArtifactRegistry(project, imageName);
    [ TagCommand(imageName, registry), AuthCommand(), PushCommand(registry),
      RemoteCommand(vm, zone, "docker-deployment.sh " + registry), DescribeCommand(vm, zone) ]
  }

  /** Every command of the docker strategy, in order, with deadlines of 5 min (build),
      1 min (tag), 30 s (auth), 5 min (push), 5 min (remote deploy) and 1 min (describe). */
  function DockerPlan(buildId: string, project: string, zone: string, vm: string): (p: seq<Command>)
    ensures |p| == 6
    ensures [p[0].timeout, p[1].timeout, p[2].timeout, p[3].timeout, p[4].timeout, p[5].timeout]
         == [300000, 60000, 30000, 300000, 300000, 60000]
  {
    [BuildCommand(ImageName(buildId))] + DockerDeploySteps(ImageName(buildId), project, zone, vm)
  }

  /** The docker strategy builds, tags, authenticates, pushes, deploys and describes, in
      that order, and the registry reference is what tag, push and the deploy script get. */
  lemma DockerPlanCommands(buildId: string, project: string, zone: string, vm: string)
    ensures var p := DockerPlan(buildId, project, zone, vm);
            && StartsWith(p[0].line, "docker build ") && StartsWith(p[1].line, "docker tag ")
            && StartsWith(p[2].line, "gcloud auth ") && StartsWith(p[3].line, "docker push ")
            && StartsWith(p[4].line, "gcloud compute ssh ")
            && StartsWith(p[5].line, "gcloud compute instances describe ")
    ensures var p := DockerPlan(buildId, project, zone, vm);
            var registry := ArtifactRegistry(project, ImageName(buildId));
            && EndsWith(p[1].line, " " + registry) && EndsWith(p[3].line, " " + registry)
            && EndsWith(p[4].line, " " + registry + "\"")
  {
    var image := ImageName(buildId);
    var registry := ArtifactRegistry(project, image);
    var p := DockerPlan(buildId, project, zone, vm);
    assert p[0] == BuildCommand(image) && p[1] == TagCommand(image, registry) && p[2] == AuthCommand();
    assert p[3] == PushCommand(registry) && p[4] == RemoteCommand(vm, zone, "docker-deployment.sh " + registry);
    assert p[5] == DescribeCommand(vm, zone);
    BuildAndTagShape(image, registry);
    AuthAndPushShape(registry);
    DeployShape(vm, zone, registry);
    DescribeShape(vm, zone);
  }

  lemma BuildAndTagShape(image: string, registry: string)
    ensures StartsWith(BuildCommand(image).line, "docker build ")
    ensures StartsWith(TagCommand(image, registry).line, "docker tag ")
    ensures EndsWith(TagCommand(image, registry).line, " " + registry)
  {
    PrefixOfConcat("docker build ", "-t " + image + " .");
    PrefixOfConcat("docker tag ", image + " " + registry);
    SuffixOfConcat("docker tag " + image, " " + registry);
  }

  lemma AuthAndPushShape(registry: string)
    ensures StartsWith(AuthCommand().line, "gcloud auth ")
    ensures StartsWith(PushCommand(registry).line, "docker push ")
    ensures EndsWith(PushCommand(registry).line, " " + registry)
  {
    PrefixOfConcat("gcloud auth ", "configure-docker " + Registry + " --quiet");
    PrefixOfConcat("docker push ", registry);
    SuffixOfConcat("docker push", " " + registry);
  }

  lemma DeployShape(vm: string, zone: string, registry: string)
    ensures var c := RemoteCommand(vm, zone, "docker-deployment.sh " + registry);
            StartsWith(c.line, "gcloud compute ssh ") && EndsWith(c.line, " " + registry + "\"")
  {
    var remote := " --zone=" + zone + " --command=\"cd /opt/sec1-app && sudo ./docker-deployment.sh";
    PrefixOfConcat("gcloud compute ssh ", vm + remote + " " + registry + "\"");
    SuffixOfConcat("gcloud compute ssh " + vm + remote, " " + registry + "\"");
  }

  lemma DescribeShape(vm: string, zone: string)
    ensures StartsWith(DescribeCommand(vm, zone).line, "gcloud compute instances describe ")
  {
    PrefixOfConcat("gcloud compute instances describe ", vm + " --zone=" + zone + " " + DescribeFormat);
  }

  /** The script strategy: run app-deployment.sh on the VM, then look up its address. */
  function ScriptPlan(zone: string, vm: string): (p: seq<Command>)
    ensures |p| == 2 && p[0].timeout == RemoteTimeout && p[1].timeout == DefaultTimeout
  {
    [RemoteCommand(vm, zone, "app-deployment.sh"), DescribeCommand(vm, zone)]
  }

  lemma PrefixOfConcat(p: string, rest: string)
    ensures StartsWith(p + rest, p)
  {
    assert (p + rest)[..|p|] == p;
  }

  lemma SuffixOfConcat(front: string, p: string)
    ensures EndsWith(front + p, p)
  {
    assert (front + p)[|front + p| - |p|..] == p;
  }

  /** The commands the strategy issues, or `None` for an unsupported strategy. */
  function Plan(deploymentType: string, buildId: string, project: string, zone: string, vm: string)
    : Option<seq<Command>>
  {
    if deploymentType == "docker" then Some(DockerPlan(buildId, project, zone, vm))
    else if deploymentType == "script" then Some(ScriptPlan(zone, vm))
    else None
  }

  // ---------------------------------------------------------------------------
  // Running a sequence of commands
  // ---------------------------------------------------------------------------

  /** Oracle answers `lo` up to `hi` (exclusive) are all clean exits. */
  predicate AllExited(oracle: nat -> ExecOutcome, lo: nat, hi: int)
  {
    forall i :: lo <= i < hi ==> oracle(i).Exited?
  }

  /** `ran` commands of `steps`, answered from `oracle(base)` on, is what running them in
      order and stopping at the first failure issues: every command but the last issued
      exited, and if some were left out the last one issued failed. */
  predicate StopsAtFirstFailure(steps: seq<Command>, oracle: nat -> ExecOutcome, base: nat, ran: nat)
  {
    && 0 < ran <= |steps|
    && AllExited(oracle, base, base + ran - 1)
    && (ran < |steps| ==> !oracle(base + ran - 1).Exited?)
  }

  /** The awaited commands of one strategy: each is issued only after the previous one
      exited, and the first failure is rethrown with its own error. On success the
      result is the output of the last command. */
  method RunSteps(steps: seq<Command>, oracle: nat -> ExecOutcome, base: nat)
    returns (ran: nat, r: Result<string, string>)
    requires |steps| > 0
    ensures StopsAtFirstFailure(steps, oracle, base, ran)
    ensures r.Ok? <==> ran == |steps| && AllExited(oracle, base, base + |steps|)
    ensures r.Ok? ==> r.value == oracle(base + |steps| - 1).stdout
    ensures r.Err? ==> !oracle(base + ran - 1).Exited?
                       && r.error == FailureMessage(steps[ran - 1], oracle(base + ran - 1))
  {
    ran := 0;
    var stdout := "";
    while ran < |steps|
      invariant 0 <= ran <= |steps|
      invariant AllExited(oracle, base, base + ran)
      invariant ran > 0 ==> stdout == oracle(base + ran - 1).stdout
    {
      var outcome := oracle(base + ran);
      ran := ran + 1;
      if !outcome.Exited? {
        r := Err(FailureMessage(steps[ran - 1], outcome));
        return;
      }
      stdout := outcome.stdout;
    }
    r := Ok(stdout);
  }

  /** `issued`, a prefix of plan `p`, is what running `p` against the answers from
      `oracle(base)` on issues, and `r` is its outcome: the application URL built from the
      last command's output when every command exited, otherwise the first failure's error. */
  predicate Deployed(p: seq<Command>, oracle: nat -> ExecOutcome, base: nat, issued: seq<Command>,
                     r: Result<string, string>)
  {
    && StopsAtFirstFailure(p, oracle, base, |issued|) && issued == p[..|issued|]
    && (r.Ok? <==> |issued| == |p| && AllExited(oracle, base, base + |p|))
    && (r.Ok? ==> r.value == ApplicationUrl(oracle(base + |p| - 1).stdout))
    && (r.Err? ==> !oracle(base + |issued| - 1).Exited?
                   && r.error == FailureMessage(issued[|issued| - 1], oracle(base + |issued| - 1)))
  }

  /** A run of `p` as `RunSteps` leaves it, with the URL built from the last output, is a
      deployment of `p`. */
  lemma RunDeploys(p: seq<Command>, oracle: nat -> ExecOutcome, base: nat, ran: nat, out: Result<string, string>)
    requires StopsAtFirstFailure(p, oracle, base, ran)
    requires out.Ok? <==> ran == |p| && AllExited(oracle, base, base + |p|)
    requires out.Ok? ==> out.value == oracle(base + |p| - 1).stdout
    requires out.Err? ==> !oracle(base + ran - 1).Exited?
                          && out.error == FailureMessage(p[ran - 1], oracle(base + ran - 1))
    ensures Deployed(p, oracle, base, p[..ran], if out.Ok? then Ok(ApplicationUrl(out.value)) else Err(out.error))
  {
    assert |p[..ran]| == ran;
  }

  // ---------------------------------------------------------------------------
  // The strategies
  // ---------------------------------------------------------------------------

  /** buildDockerImage: one build command; returns the image name it built. */
  method BuildDockerImage(buildId: string, oracle: nat -> ExecOutcome, base: nat)
    returns (ran: nat, r: Result<string, string>)
    ensures ran == 1
    ensures r.Ok? <==> oracle(base).Exited?
    ensures r.Ok? ==> r.value == ImageName(buildId)
    ensures r.Err? ==> r.error == FailureMessage(BuildCommand(ImageName(buildId)), oracle(base))
  {
    var imageName := ImageName(buildId);
    var built;
    ran, built := RunSteps([BuildCommand(imageName)], oracle, base);
    r := if built.Ok? then Ok(imageName) else Err(built.error);
  }

  /** deployDockerToGcpVm: tag, auth, push, remote deploy, describe, each after the
      previous one exited; the application URL is built from the trimmed output of describe. */
  method DeployDockerToGcpVm(imageName: string, project: string, zone: string, vm: string,
                             oracle: nat -> ExecOutcome, base: nat)
    returns (issued: seq<Command>, r: Result<string, string>)
    ensures Deployed(DockerDeploySteps(imageName, project, zone, vm), oracle, base, issued, r)
  {
    var steps := DockerDeploySteps(imageName, project, zone, vm);
    var ran, out := RunSteps(steps, oracle, base);
    issued := steps[..ran];
    r := if out.Ok? then Ok(ApplicationUrl(out.value)) else Err(out.error);
    RunDeploys(steps, oracle, base, ran, out);
  }

  /** deployViaScript: remote app-deployment.sh, then describe. */
  method DeployViaScript(zone: string, vm: string, oracle: nat -> ExecOutcome)
    returns (issued: seq<Command>, r: Result<string, string>)
    ensures Deployed(ScriptPlan(zone, vm), oracle, 0, issued, r)
  {
    var steps := ScriptPlan(zone, vm);
    var ran, out := RunSteps(steps, oracle, 0);
    issued := steps[..ran];
    r := if out.Ok? then Ok(ApplicationUrl(out.value)) else Err(out.error);
    RunDeploys(steps, oracle, 0, ran, out);
  }

  /** Once the first answer exited, all answers up to `hi` exited exactly when those from
      the second one on did. */
  lemma ExitedFromSecond(oracle: nat -> ExecOutcome, hi: int)
    requires oracle(0).Exited?
    ensures AllExited(oracle, 0, hi) <==> AllExited(oracle, 1, hi)
  {
    if AllExited(oracle, 1, hi) {
      forall i | 0 <= i < hi ensures oracle(i).Exited? {
        if i > 0 { assert 1 <= i < hi; }
      }
    }
  }

  /** A build that exited, followed by a deployment run from the second answer on, is a
      run of the whole docker plan from the first answer. */
  lemma BuildThenDeploy(p: seq<Command>, build: Command, steps: seq<Command>, oracle: nat -> ExecOutcome,
                        deployed: seq<Command>, r: Result<string, string>)
    requires p == [build] + steps
    requires oracle(0).Exited?
    requires Deployed(steps, oracle, 1, deployed, r)
    ensures Deployed(p, oracle, 0, [build] + deployed, r)
  {
    var issued := [build] + deployed;
    assert issued == p[..|issued|];
    ExitedFromSecond(oracle, |deployed|);
    ExitedFromSecond(oracle, |p|);
    assert issued[|issued| - 1] == deployed[|deployed| - 1];
  }

  /** A plan whose first command failed stops there with that command's error. */
  lemma FirstCommandFailed(p: seq<Command>, oracle: nat -> ExecOutcome)
    requires |p| > 0 && !oracle(0).Exited?
    ensures Deployed(p, oracle, 0, p[..1], Err(FailureMessage(p[0], oracle(0))))
  {
    assert !AllExited(oracle, 0, |p|);
  }

  /** deployApplication: branches on the strategy and returns the application URL, or
      the error of the first failing command; an unsupported strategy fails before any
      command is issued. `issued` lists the commands run, in order. */
  method DeployApplication(deploymentType: string, buildId: string, project: string, zone: string, vm: string,
                           oracle: nat -> ExecOutcome)
    returns (issued: seq<Command>, r: Result<string, string>)
    ensures Plan(deploymentType, buildId, project, zone, vm).None? ==>
              issued == [] && r == Err(UnsupportedMessage(deploymentType))
    ensures Plan(deploymentType, buildId, project, zone, vm).Some? ==>
              Deployed(Plan(deploymentType, buildId, project, zone, vm).value, oracle, 0, issued, r)
  {
    if deploymentType == "docker" {
      var plan := DockerPlan(buildId, project, zone, vm);
      var built, image := BuildDockerImage(buildId, oracle, 0);
      if image.Err? {
        issued := plan[..1];
        r := Err(image.error);
        FirstCommandFailed(plan, oracle);
        return;
      }
      var deployed;
      deployed, r := DeployDockerToGcpVm(image.value, project, zone, vm, oracle, 1);
      issued := [plan[0]] + deployed;
      BuildThenDeploy(plan, plan[0], DockerDeploySteps(image.value, project, zone, vm), oracle, deployed, r);
    } else if deploymentType == "script" {
      issued, r := DeployViaScript(zone, vm, oracle);
    } else {
      issued := [];
      r := Err(UnsupportedMessage(deploymentType));
    }
  }

  /** A command whose first character differs from the prefix's does not start with it. */
  lemma FirstCharDiffers(s: string, p: string)
    requires |s| > 0 && |p| > 0 && s[0] != p[0]
    ensures !StartsWith(s, p)
  {
  }

  /** The script strategy never issues a docker command. */
  lemma ScriptPlanHasNoDocker(zone: string, vm: string)
    ensures forall c :: c in ScriptPlan(zone, vm) ==> !StartsWith(c.line, "docker")
  {
    var p := ScriptPlan(zone, vm);
    FirstCharDiffers(p[0].line, "docker");
    FirstCharDiffers(p[1].line, "docker");
  }

  /** A failed push ends the docker strategy with that failure: the remote deploy and
      the address lookup are never issued. */
  lemma NoDeployAfterFailedPush(buildId: string, project: string, zone: string, vm: string,
                                oracle: nat -> ExecOutcome, issued: seq<Command>, r: Result<string, string>)
    requires Deployed(DockerPlan(buildId, project, zone, vm), oracle, 0, issued, r)
    requires AllExited(oracle, 0, 3) && !oracle(3).Exited?
    ensures |issued| == 4 && r.Err?
    ensures r.error == FailureMessage(PushCommand(ArtifactRegistry(project, ImageName(buildId))), oracle(3))
  {
  }
}
