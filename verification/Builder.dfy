/** builder.go: one build run after another against one container registry. */
module Builder {
  import opened Options
  import opened Text
  import opened Events
  import opened ImageComponent
  import opened ImageReference

  type Error = Option<string>

  datatype BuildRequest = BuildRequest(projectId: string, serviceId: string, repositoryDir: string)

  datatype Command =
    | RevParse(dir: string)
    | Login(host: string, username: string, stdin: string)
    | Inspect(tag: string)
    | Nixpacks(dir: string, tag: string)
    | DockerBuild(tag: string, dir: string)
    | Push(tag: string)
    | RemoveImage(tag: string)

  /** A command and whether it succeeded. */
  datatype Step = Step(command: Command, ok: bool)

  type Steps = seq<Step>

  /** What os.Stat can say of the Dockerfile's path. */
  datatype Stat = PlainFile | Directory | Missing | Unreadable

  /** The place of a command in a run. */
  function Rank(c: Command): nat {
    match c
    case RevParse(_) => 0
    case Login(_, _, _) => 1
    case Inspect(_) => 2
    case Nixpacks(_, _) => 3
    case DockerBuild(_, _) => 4
    case Push(_) => 5
    case RemoveImage(_) => 6
  }

  /** Every command at most once, and in its place. */
  predicate InOrder(steps: Steps) {
    forall i, j :: 0 <= i < j < |steps| ==> Rank(steps[i].command) < Rank(steps[j].command)
  }

  predicate Succeeded(steps: Steps, c: Command) {
    Step(c, true) in steps
  }

  predicate Failed(steps: Steps, c: Command) {
    Step(c, false) in steps
  }

  predicate Ran(steps: Steps, c: Command) {
    Succeeded(steps, c) || Failed(steps, c)
  }

  /** printed is the output of the run's git command. */
  datatype Run = Run(request: BuildRequest, steps: Steps, printed: string, result: BuildResult, error: Error)

  /** Host, user and password are all given. */
  predicate Credentials(registry: RegistryConfig) {
    TrimSpace(registry.host) != "" && TrimSpace(registry.username) != "" && registry.password != ""
  }

  function LoginTo(registry: RegistryConfig, lower: Lower): Command {
    Login(NormalizeHost(registry.host, lower), registry.username, registry.password)
  }

  /** Nothing but the commands of this request, in order. */
  predicate OwnCommands(registry: RegistryConfig, run: Run, lower: Lower) {
    var tag, dir := run.result.imageTag, run.request.repositoryDir;
    && InOrder(run.steps)
    && forall i :: 0 <= i < |run.steps| ==>
         run.steps[i].command in
           {RevParse(dir), LoginTo(registry, lower), Inspect(tag), Nixpacks(dir, tag), DockerBuild(tag, dir), Push(tag),
            RemoveImage(tag)}
  }

  /** Which outcome leads to which command. */
  predicate Causes(registry: RegistryConfig, run: Run, lower: Lower) {
    var tag, dir, steps := run.result.imageTag, run.request.repositoryDir, run.steps;
    && Ran(steps, RevParse(dir))
    && (Ran(steps, LoginTo(registry, lower)) ==>
          Succeeded(steps, RevParse(dir)) && tag != "" && Credentials(registry))
    && (Ran(steps, Inspect(tag)) <==> Succeeded(steps, LoginTo(registry, lower)))
    && (Ran(steps, RemoveImage(tag)) <==> Succeeded(steps, LoginTo(registry, lower)))
    && (Ran(steps, Nixpacks(dir, tag)) <==> Failed(steps, Inspect(tag)))
    && (Ran(steps, DockerBuild(tag, dir)) ==> Failed(steps, Nixpacks(dir, tag)))
    && (Ran(steps, Push(tag)) <==> Succeeded(steps, Nixpacks(dir, tag)) || Succeeded(steps, DockerBuild(tag, dir)))
  }

  /** What the caller is told. */
  predicate Verdict(registry: RegistryConfig, run: Run, lower: Lower) {
    var tag, dir, steps := run.result.imageTag, run.request.repositoryDir, run.steps;
    && (run.error.None? <==> Succeeded(steps, Inspect(tag)) || Succeeded(steps, Push(tag)))
    && run.result.builder == (
         if Succeeded(steps, Inspect(tag)) then "registry"
         else if Ran(steps, DockerBuild(tag, dir)) then "dockerfile"
         else if Ran(steps, Nixpacks(dir, tag)) then "nixpacks"
         else "")
    && run.result.commitSha == (if Succeeded(steps, RevParse(dir)) then TrimBytes(run.printed) else "")
    && Named(registry, run.request, run.result, run.error, lower)
  }

  /** A commit that git printed and a host give the image its reference; no other does, and without a host that is
      the error. */
  predicate Named(registry: RegistryConfig, request: BuildRequest, result: BuildResult, err: Error, lower: Lower) {
    var reference :=
      BuildImageReference(registry, request.projectId, request.serviceId, result.commitSha, lower);
    && (result.imageTag != "" <==> result.commitSha != "" && reference.Reference?)
    && (result.imageTag != "" ==> reference == Reference(result.imageTag))
    && (result.commitSha != "" && reference.MissingHost? ==> err == Some("missing CONTAINER_REGISTRY_HOST"))
  }

  predicate WellRun(registry: RegistryConfig, run: Run, lower: Lower) {
    OwnCommands(registry, run, lower) && Causes(registry, run, lower) && Verdict(registry, run, lower)
  }

  // ------------------------------------------------------------------ what the registry holds

  /** The tags after a log: those of before and those pushed. */
  function TagsAfter(base: set<string>, steps: Steps): (tags: set<string>) {
    if steps == [] then base
    else
      var before, last := TagsAfter(base, steps[..|steps| - 1]), steps[|steps| - 1];
      if last.command.Push? && last.ok then before + {last.command.tag} else before
  }

  /** Inspecting succeeds exactly when the tag is there. */
  predicate Truthful(base: set<string>, steps: Steps) {
    forall i :: 0 <= i < |steps| && steps[i].command.Inspect? ==>
      (steps[i].ok <==> steps[i].command.tag in TagsAfter(base, steps[..i]))
  }

  /** The machine the builder runs on, and the registry it talks to. */
  class Machine {
    var registry: set<string>
    var log: Steps
    /** What git has printed, one text for each of its commands in the log. */
    var printed: seq<string>
    ghost const base: set<string>

    ghost predicate Valid()
      reads this
    {
      registry == TagsAfter(base, log) && Truthful(base, log)
    }

    constructor (tags: set<string>)
      ensures Valid() && registry == base == tags && log == [] && printed == []
    {
      registry, log, printed, base := tags, [], [], tags;
    }

    /** runCommand. */
    method Run(c: Command) returns (output: string, ok: bool)
      requires Valid()
      modifies this
      ensures Valid()
      ensures log == old(log) + [Step(c, ok)]
      ensures printed == if c.RevParse? then old(printed) + [output] else old(printed)
      ensures registry == if c.Push? && ok then old(registry) + {c.tag} else old(registry)
      ensures c.Inspect? ==> (ok <==> c.tag in registry)
    {
      output, ok := *, *;
      if c.Inspect? {
        ok := c.tag in registry;
      }
      if c.Push? && ok {
        registry := registry + {c.tag};
      }
      Extend(base, log, Step(c, ok));
      log := log + [Step(c, ok)];
      if c.RevParse? {
        printed := printed + [output];
      }
    }
  }

  lemma Extend(base: set<string>, steps: Steps, step: Step)
    requires Truthful(base, steps)
    requires step.command.Inspect? ==> (step.ok <==> step.command.tag in TagsAfter(base, steps))
    ensures Truthful(base, steps + [step])
    ensures TagsAfter(base, steps + [step])
      == if step.command.Push? && step.ok then TagsAfter(base, steps) + {step.command.tag} else TagsAfter(base, steps)
  {
    var more := steps + [step];
    assert more[..|steps|] == steps;
    forall i | 0 <= i < |more| && more[i].command.Inspect?
      ensures more[i].ok <==> more[i].command.tag in TagsAfter(base, more[..i])
    {
      assert i < |steps| ==> more[..i] == steps[..i];
    }
  }

  // ------------------------------------------------------------------ the builder

  function Flatten(runs: seq<Run>): Steps {
    if runs == [] then [] else Flatten(runs[..|runs| - 1]) + runs[|runs| - 1].steps
  }

  lemma Append(log: Steps, a: Steps, b: Steps)
    ensures log + a + b == log + (a + b)
  {
  }

  /** The git outputs of the runs. */
  function Outputs(runs: seq<Run>): seq<string> {
    if runs == [] then [] else Outputs(runs[..|runs| - 1]) + [runs[|runs| - 1].printed]
  }

  lemma FlattenMore(runs: seq<Run>, run: Run)
    ensures Flatten(runs + [run]) == Flatten(runs) + run.steps
    ensures Outputs(runs + [run]) == Outputs(runs) + [run.printed]
  {
    assert (runs + [run])[..|runs|] == runs;
  }

  /** What may happen between the login and the removal of the local image. */
  predicate Between(dir: string, tag: string, steps: Steps, name: string, err: Error) {
    var absent := Step(Inspect(tag), false);
    var noPlan := Step(Nixpacks(dir, tag), false);
    var pushed := Step(Push(tag), err.None?);
    || (steps == [Step(Inspect(tag), true)] && name == "registry" && err.None?)
    || (steps == [absent, noPlan] && name == "nixpacks" && err.Some?)
    || (steps == [absent, Step(Nixpacks(dir, tag), true), pushed] && name == "nixpacks")
    || (steps == [absent, noPlan, Step(DockerBuild(tag, dir), false)] && name == "dockerfile" && err.Some?)
    || (steps == [absent, noPlan, Step(DockerBuild(tag, dir), true), pushed] && name == "dockerfile")
  }

  lemma BetweenIsWellRun(
    registry: RegistryConfig, request: BuildRequest, printed: string, result: BuildResult, err: Error, middle: Steps,
    removed: bool, lower: Lower)
    returns (run: Run)
    requires result.imageTag != "" && Named(registry, request, result, err, lower) && Credentials(registry)
    requires result.commitSha == TrimBytes(printed)
    requires Between(request.repositoryDir, result.imageTag, middle, result.builder, err)
    ensures run.request == request && run.printed == printed && run.result == result && run.error == err
    ensures WellRun(registry, run, lower)
    ensures run.steps == [Step(RevParse(request.repositoryDir), true), Step(LoginTo(registry, lower), true)]
      + middle + [Step(RemoveImage(result.imageTag), removed)]
  {
    hide BuildImageReference, LoginTo, Between, OwnCommands, Causes, Verdict, Named, TrimBytes, Credentials;
    run := Run(request,
      [Step(RevParse(request.repositoryDir), true), Step(LoginTo(registry, lower), true)]
      + middle + [Step(RemoveImage(result.imageTag), removed)], printed, result, err);
    IsLogin(registry, lower);
    BetweenOrder(registry, run, middle, removed, lower);
    BetweenCauses(registry, run, middle, removed, lower);
    BetweenVerdict(registry, run, middle, removed, lower);
  }

  /** A run that got past the login. */
  predicate Whole(registry: RegistryConfig, run: Run, middle: Steps, removed: bool, lower: Lower) {
    && LoginTo(registry, lower).Login?
    && Between(run.request.repositoryDir, run.result.imageTag, middle, run.result.builder, run.error)
    && run.steps == [Step(RevParse(run.request.repositoryDir), true), Step(LoginTo(registry, lower), true)]
         + middle + [Step(RemoveImage(run.result.imageTag), removed)]
  }

  lemma BetweenOrder(registry: RegistryConfig, run: Run, middle: Steps, removed: bool, lower: Lower)
    requires Whole(registry, run, middle, removed, lower)
    ensures OwnCommands(registry, run, lower)
  {
    hide LoginTo;
    forall i, j | 0 <= i < j < |run.steps| ensures Rank(run.steps[i].command) < Rank(run.steps[j].command) {
    }
  }

  lemma BetweenMembers(registry: RegistryConfig, run: Run, middle: Steps, removed: bool, lower: Lower, s: Step)
    requires Whole(registry, run, middle, removed, lower)
    ensures s in run.steps <==>
      || s == Step(RevParse(run.request.repositoryDir), true) || s == Step(LoginTo(registry, lower), true)
      || s in middle || s == Step(RemoveImage(run.result.imageTag), removed)
  {
  }

  lemma BetweenCauses(registry: RegistryConfig, run: Run, middle: Steps, removed: bool, lower: Lower)
    requires Whole(registry, run, middle, removed, lower) && run.result.imageTag != "" && Credentials(registry)
    ensures Causes(registry, run, lower)
  {
    hide LoginTo, Credentials;
    var tag, dir := run.result.imageTag, run.request.repositoryDir;
    var steps := run.steps;
    FrontAndBack(registry, run, middle, removed, lower);
    IsMiddle(registry, run, middle, removed, lower, Inspect(tag));
    IsMiddle(registry, run, middle, removed, lower, Nixpacks(dir, tag));
    IsMiddle(registry, run, middle, removed, lower, DockerBuild(tag, dir));
    IsMiddle(registry, run, middle, removed, lower, Push(tag));
    MiddleCauses(dir, tag, middle, run.result.builder, run.error);
    hide Whole, Succeeded, Failed;
  }

  lemma FrontAndBack(registry: RegistryConfig, run: Run, middle: Steps, removed: bool, lower: Lower)
    requires Whole(registry, run, middle, removed, lower)
    ensures Succeeded(run.steps, RevParse(run.request.repositoryDir))
    ensures Succeeded(run.steps, LoginTo(registry, lower)) && Ran(run.steps, RemoveImage(run.result.imageTag))
  {
    hide Between, LoginTo;
    BetweenMembers(registry, run, middle, removed, lower, Step(RevParse(run.request.repositoryDir), true));
    BetweenMembers(registry, run, middle, removed, lower, Step(LoginTo(registry, lower), true));
    BetweenMembers(registry, run, middle, removed, lower, Step(RemoveImage(run.result.imageTag), removed));
  }

  lemma IsMiddle(registry: RegistryConfig, run: Run, middle: Steps, removed: bool, lower: Lower, c: Command)
    requires Whole(registry, run, middle, removed, lower) && !c.RevParse? && !c.Login? && !c.RemoveImage?
    ensures Succeeded(run.steps, c) <==> Succeeded(middle, c)
    ensures Failed(run.steps, c) <==> Failed(middle, c)
  {
    hide Between, LoginTo;
    BetweenMembers(registry, run, middle, removed, lower, Step(c, true));
    BetweenMembers(registry, run, middle, removed, lower, Step(c, false));
  }

  lemma MiddleCauses(dir: string, tag: string, middle: Steps, name: string, err: Error)
    requires Between(dir, tag, middle, name, err)
    ensures Ran(middle, Inspect(tag))
    ensures Ran(middle, Nixpacks(dir, tag)) <==> Failed(middle, Inspect(tag))
    ensures Ran(middle, DockerBuild(tag, dir)) ==> Failed(middle, Nixpacks(dir, tag))
    ensures Ran(middle, Push(tag)) <==>
      Succeeded(middle, Nixpacks(dir, tag)) || Succeeded(middle, DockerBuild(tag, dir))
  {
  }

  lemma BetweenVerdict(registry: RegistryConfig, run: Run, middle: Steps, removed: bool, lower: Lower)
    requires Whole(registry, run, middle, removed, lower) && run.result.imageTag != ""
    requires Named(registry, run.request, run.result, run.error, lower)
    requires run.result.commitSha == TrimBytes(run.printed)
    ensures Verdict(registry, run, lower)
  {
    hide LoginTo, Named, TrimBytes;
    forall s: Step ensures s in run.steps <==>
      || s == Step(RevParse(run.request.repositoryDir), true) || s == Step(LoginTo(registry, lower), true)
      || s in middle || s == Step(RemoveImage(run.result.imageTag), removed)
    {
      BetweenMembers(registry, run, middle, removed, lower, s);
    }
  }

  lemma IsLogin(registry: RegistryConfig, lower: Lower)
    ensures LoginTo(registry, lower).Login?
  {
  }

  /** A run that ends at or before the login. */
  lemma ShortIsWellRun(
    registry: RegistryConfig, request: BuildRequest, printed: string, result: BuildResult, err: Error, resolved: bool,
    login: bool, lower: Lower)
    returns (run: Run)
    requires err.Some? && result.builder == "" && Named(registry, request, result, err, lower)
    requires result.commitSha == if resolved then TrimBytes(printed) else ""
    requires login ==> resolved && result.imageTag != "" && Credentials(registry)
    ensures run.request == request && run.printed == printed && run.result == result && run.error == err
    ensures WellRun(registry, run, lower)
    ensures run.steps == [Step(RevParse(request.repositoryDir), resolved)]
      + (if login then [Step(LoginTo(registry, lower), false)] else [])
  {
    hide BuildImageReference, LoginTo, Named, TrimBytes, Credentials;
    run := Run(request, [Step(RevParse(request.repositoryDir), resolved)]
      + (if login then [Step(LoginTo(registry, lower), false)] else []), printed, result, err);
    assert LoginTo(registry, lower).Login? by { IsLogin(registry, lower); }
  }

  class CommandBuilder {
    const registry: RegistryConfig
    const lower: Lower
    const machine: Machine
    ghost var runs: seq<Run>

    /** The log is that of the runs so far, each of them well run. */
    ghost predicate Valid()
      reads this, machine
    {
      && machine.Valid()
      && machine.log == Flatten(runs) && machine.printed == Outputs(runs)
      && forall i :: 0 <= i < |runs| ==> WellRun(registry, runs[i], lower)
    }

    constructor (registry: RegistryConfig, lower: Lower, machine: Machine)
      requires machine.Valid() && machine.log == [] && machine.printed == []
      ensures Valid() && runs == [] && this.registry == registry && this.lower == lower && this.machine == machine
    {
      this.registry, this.lower, this.machine := registry, lower, machine;
      runs := [];
    }

    /** The commit is what git printed, without white space around it, and never empty. */
    method ResolveCommitSha(dir: string)
      returns (commit: string, err: Error, ghost printed: string, ghost ok: bool)
      requires machine.Valid()
      modifies machine
      ensures machine.Valid() && machine.registry == old(machine.registry)
      ensures machine.log == old(machine.log) + [Step(RevParse(dir), ok)]
      ensures machine.printed == old(machine.printed) + [printed]
      ensures err.None? <==> ok && TrimBytes(printed) != ""
      ensures commit == if ok then TrimBytes(printed) else ""
    {
      var output, done := machine.Run(RevParse(dir));
      printed, ok := output, done;
      if !done {
        return "", Some("resolve commit sha"), printed, ok;
      }
      commit := TrimBytes(output);
      if commit == "" {
        return "", Some("git returned an empty commit sha"), printed, ok;
      }
      err := None;
    }

    method ValidateRegistryConfig() returns (err: Error)
      ensures err.None? <==> Credentials(registry)
      ensures TrimSpace(registry.host) == "" ==> err == Some("missing CONTAINER_REGISTRY_HOST")
      ensures TrimSpace(registry.host) != "" && TrimSpace(registry.username) == "" ==>
        err == Some("missing CONTAINER_REGISTRY_USERNAME")
      ensures TrimSpace(registry.host) != "" && TrimSpace(registry.username) != "" && registry.password == "" ==>
        err == Some("missing CONTAINER_REGISTRY_PASSWORD")
    {
      if TrimSpace(registry.host) == "" {
        err := Some("missing CONTAINER_REGISTRY_HOST");
      } else if TrimSpace(registry.username) == "" {
        err := Some("missing CONTAINER_REGISTRY_USERNAME");
      } else if registry.password == "" {
        err := Some("missing CONTAINER_REGISTRY_PASSWORD");
      } else {
        err := None;
      }
    }

    /** Logs in; what fails before the login leaves no command behind. */
    method RegistryDockerEnv() returns (err: Error)
      requires machine.Valid()
      modifies machine
      ensures machine.Valid() && machine.registry == old(machine.registry) && machine.printed == old(machine.printed)
      ensures machine.log == old(machine.log) + [Step(LoginTo(registry, lower), err.None?)]
        || (err.Some? && machine.log == old(machine.log))
      ensures machine.log != old(machine.log) ==> Credentials(registry)
      ensures err.None? ==> Credentials(registry)
    {
      err := ValidateRegistryConfig();
      if err.Some? {
        return;
      }
      var created: bool := *;
      if !created {
        return Some("create docker config dir");
      }
      var _, ok := machine.Run(Login(NormalizeHost(registry.host, lower), registry.username, registry.password));
      err := if ok then None else Some("docker login failed");
    }

    /** A directory of that name does not count; a check that fails otherwise is an error. */
    method HasDockerfile(dir: string) returns (found: bool, err: Error, ghost stat: Stat)
      ensures found <==> stat == PlainFile
      ensures err.Some? <==> stat == Unreadable
    {
      var info: Stat :| true;
      stat := info;
      match info {
        case PlainFile => found, err := true, None;
        case Directory => found, err := false, None;
        case Missing => found, err := false, None;
        case Unreadable => found, err := false, Some("check Dockerfile");
      }
    }

    /** Nixpacks first; docker build exactly when that failed and there is a Dockerfile. */
    method BuildImage(dir: string, tag: string)
      returns (name: string, err: Error, ghost steps: Steps, ghost stat: Stat)
      requires machine.Valid()
      modifies machine
      ensures machine.Valid() && machine.registry == old(machine.registry) && machine.printed == old(machine.printed)
      ensures machine.log == old(machine.log) + steps
      ensures
        || (steps == [Step(Nixpacks(dir, tag), err.None?)] && name == "nixpacks")
        || (steps == [Step(Nixpacks(dir, tag), false), Step(DockerBuild(tag, dir), err.None?)] && name == "dockerfile")
      ensures Failed(steps, Nixpacks(dir, tag)) ==> (Ran(steps, DockerBuild(tag, dir)) <==> stat == PlainFile)
    {
      stat := Missing;
      var _, nixpacks := machine.Run(Nixpacks(dir, tag));
      steps := [Step(Nixpacks(dir, tag), nixpacks)];
      if nixpacks {
        return "nixpacks", None, steps, stat;
      }
      var dockerfileExists;
      dockerfileExists, err, stat := HasDockerfile(dir);
      if err.Some? {
        return "nixpacks", err, steps, stat;
      }
      if !dockerfileExists {
        return "nixpacks", Some("nixpacks build failed and no Dockerfile found"), steps, stat;
      }
      var _, docker := machine.Run(DockerBuild(tag, dir));
      steps := steps + [Step(DockerBuild(tag, dir), docker)];
      name, err := "dockerfile", if docker then None else Some("docker build fallback failed");
    }

    /** What happens between the login and the removal of the local image. */
    method InspectBuildPush(dir: string, tag: string) returns (name: string, err: Error, ghost steps: Steps)
      requires machine.Valid()
      modifies machine
      ensures machine.Valid() && machine.log == old(machine.log) + steps && machine.printed == old(machine.printed)
      ensures Between(dir, tag, steps, name, err)
      ensures err.None? ==> tag in machine.registry
    {
      hide Machine.Valid;
      var _, present := machine.Run(Inspect(tag));
      steps := [Step(Inspect(tag), present)];
      if present {
        return "registry", None, steps;
      }
      ghost var built, stat;
      name, err, built, stat := BuildImage(dir, tag);
      Append(old(machine.log), steps, built);
      steps := steps + built;
      if err.Some? {
        return;
      }
      var _, pushed := machine.Run(Push(tag));
      Append(old(machine.log), steps, [Step(Push(tag), pushed)]);
      steps := steps + [Step(Push(tag), pushed)];
      err := if pushed then None else Some("docker push failed");
    }

    /** Adds a run whose steps are in the log already. */
    ghost method Finish(run: Run)
      requires machine.Valid() && machine.log == Flatten(runs) + run.steps
      requires machine.printed == Outputs(runs) + [run.printed]
      requires WellRun(registry, run, lower) && forall i :: 0 <= i < |runs| ==> WellRun(registry, runs[i], lower)
      modifies this`runs
      ensures Valid() && runs == old(runs) + [run]
    {
      hide WellRun, TagsAfter, Truthful;
      FlattenMore(runs, run);
      runs := runs + [run];
    }

    method BuildAndPush(request: BuildRequest) returns (result: BuildResult, err: Error, ghost run: Run)
      requires Valid()
      modifies this`runs, machine
      ensures Valid()
      ensures runs == old(runs) + [run] && run.request == request && run.result == result && run.error == err
      ensures machine.printed == old(machine.printed) + [run.printed]
      ensures err.None? ==> result.imageTag in machine.registry && result.commitSha == TrimBytes(run.printed) != ""
    {
      hide BuildImageReference, LoginTo, WellRun, Between, Flatten, Outputs, Machine.Valid, TrimBytes, ShortCommitSha;
      ghost var before := machine.log;
      result := NO_RESULT;
      var commit;
      ghost var printed, resolved;
      commit, err, printed, resolved := ResolveCommitSha(request.repositoryDir);
      if err.Some? {
        run := ShortIsWellRun(registry, request, printed, result, err, resolved, false, lower);
        Finish(run);
        return;
      }
      result := result.(commitSha := commit);
      var reference := BuildImageReference(registry, request.projectId, request.serviceId, commit, lower);
      if !reference.Reference? {
        err := Some(if reference.MissingHost? then "missing CONTAINER_REGISTRY_HOST"
                    else "missing commit sha for image tag");
        run := ShortIsWellRun(registry, request, printed, result, err, true, false, lower);
        Finish(run);
        return;
      }
      ReferenceIsNotEmpty(registry, request.projectId, request.serviceId, commit, lower);
      result := result.(imageTag := reference.text);
      result, err, run := BuildReference(request, printed, result);
    }

    /** The part after the reference is known. The local image is removed on every way out past the login. */
    method BuildReference(request: BuildRequest, ghost printed: string, named: BuildResult)
      returns (result: BuildResult, err: Error, ghost run: Run)
      requires named.imageTag != "" && named.builder == "" && named.commitSha == TrimBytes(printed) != ""
      requires BuildImageReference(registry, request.projectId, request.serviceId, named.commitSha, lower)
        == Reference(named.imageTag)
      requires machine.Valid() && machine.log == Flatten(runs) + [Step(RevParse(request.repositoryDir), true)]
      requires machine.printed == Outputs(runs) + [printed]
      requires forall i :: 0 <= i < |runs| ==> WellRun(registry, runs[i], lower)
      modifies this`runs, machine
      ensures Valid()
      ensures runs == old(runs) + [run] && run.request == request && run.result == result && run.error == err
      ensures run.printed == printed && result.commitSha == named.commitSha && result.imageTag == named.imageTag
      ensures machine.printed == old(machine.printed)
      ensures err.None? ==> result.imageTag in machine.registry
    {
      hide BuildImageReference, LoginTo, WellRun, Between, Flatten, Outputs, Machine.Valid, Credentials, TrimBytes;
      result := named;
      ghost var before, resolved := Flatten(runs), [Step(RevParse(request.repositoryDir), true)];
      err := RegistryDockerEnv();
      if err.Some? {
        ghost var login := |machine.log| > |before| + 1;
        Append(before, resolved, if login then [Step(LoginTo(registry, lower), false)] else []);
        run := ShortIsWellRun(registry, request, printed, result, err, true, login, lower);
        Finish(run);
        return;
      }
      var name;
      ghost var middle;
      name, err, middle := InspectBuildPush(request.repositoryDir, result.imageTag);
      result := result.(builder := name);
      var _, removed := machine.Run(RemoveImage(result.imageTag));
      ghost var front := resolved + [Step(LoginTo(registry, lower), true)];
      Append(before, resolved, [Step(LoginTo(registry, lower), true)]);
      Append(before, front, middle);
      Append(before, front + middle, [Step(RemoveImage(result.imageTag), removed)]);
      run := BetweenIsWellRun(registry, request, printed, result, err, middle, removed, lower);
      Finish(run);
    }
  }

  lemma ReferenceIsNotEmpty(
    registry: RegistryConfig, project: string, service: string, commit: string, lower: Lower)
    requires BuildImageReference(registry, project, service, commit, lower).Reference?
    ensures BuildImageReference(registry, project, service, commit, lower).text != ""
  {
    ReferenceLayout(registry, project, service, commit, lower);
  }

  // ------------------------------------------------------------------ over all runs

  /** How often a tag was pushed. */
  function Pushes(steps: Steps, tag: string): nat {
    if steps == [] then 0
    else Pushes(steps[..|steps| - 1], tag) + (if steps[|steps| - 1] == Step(Push(tag), true) then 1 else 0)
  }

  lemma {:induction false} TagsExactly(base: set<string>, steps: Steps, tag: string)
    ensures tag in TagsAfter(base, steps) <==> tag in base || Succeeded(steps, Push(tag))
  {
    if steps != [] {
      TagsExactly(base, steps[..|steps| - 1], tag);
      assert steps == steps[..|steps| - 1] + [steps[|steps| - 1]];
    }
  }

  lemma {:induction false} PushesExactly(steps: Steps, tag: string)
    ensures Pushes(steps, tag) > 0 <==> Succeeded(steps, Push(tag))
    ensures InOrder(steps) ==> Pushes(steps, tag) <= 1
  {
    if steps != [] {
      var before, last := steps[..|steps| - 1], steps[|steps| - 1];
      PushesExactly(before, tag);
      assert steps == before + [last];
      if InOrder(steps) && last == Step(Push(tag), true) {
        assert forall s :: s in before ==> Rank(s.command) < Rank(last.command);
      }
    }
  }

  lemma LogsAddUp(base: set<string>, a: Steps, b: Steps, tag: string)
    ensures TagsAfter(base, a + b) == TagsAfter(TagsAfter(base, a), b)
    ensures Pushes(a + b, tag) == Pushes(a, tag) + Pushes(b, tag)
  {
    TagsAddUp(base, a, b);
    PushesAddUp(a, b, tag);
  }

  lemma {:induction false} TagsAddUp(base: set<string>, a: Steps, b: Steps)
    ensures TagsAfter(base, a + b) == TagsAfter(TagsAfter(base, a), b)
  {
    if b == [] {
      assert a + b == a;
    } else {
      TagsAddUp(base, a, b[..|b| - 1]);
      assert (a + b)[..|a + b| - 1] == a + b[..|b| - 1];
    }
  }

  lemma {:induction false} PushesAddUp(a: Steps, b: Steps, tag: string)
    ensures Pushes(a + b, tag) == Pushes(a, tag) + Pushes(b, tag)
  {
    if b == [] {
      assert a + b == a;
    } else {
      PushesAddUp(a, b[..|b| - 1], tag);
      assert (a + b)[..|a + b| - 1] == a + b[..|b| - 1];
    }
  }

  lemma TruthfulParts(base: set<string>, a: Steps, b: Steps)
    requires Truthful(base, a + b)
    ensures Truthful(base, a) && Truthful(TagsAfter(base, a), b)
  {
    forall i | 0 <= i < |a| && a[i].command.Inspect?
      ensures a[i].ok <==> a[i].command.tag in TagsAfter(base, a[..i])
    {
      assert (a + b)[i] == a[i] && (a + b)[..i] == a[..i];
    }
    forall i | 0 <= i < |b| && b[i].command.Inspect?
      ensures b[i].ok <==> b[i].command.tag in TagsAfter(TagsAfter(base, a), b[..i])
    {
      LogsAddUp(base, a, b[..i], "");
      assert (a + b)[|a| + i] == b[i] && (a + b)[..|a| + i] == a + b[..i];
    }
  }

  /** In one run: a tag is pushed exactly when it is new. */
  lemma PushedWhenNew(base: set<string>, registry: RegistryConfig, run: Run, tag: string, lower: Lower)
    requires WellRun(registry, run, lower) && Truthful(base, run.steps)
    ensures Pushes(run.steps, tag) == if tag in TagsAfter(base, run.steps) && tag !in base then 1 else 0
  {
    TagsExactly(base, run.steps, tag);
    PushesExactly(run.steps, tag);
    if Succeeded(run.steps, Push(tag)) {
      var i :| 0 <= i < |run.steps| && run.steps[i] == Step(Push(tag), true);
      assert tag == run.result.imageTag by { hide Causes, Verdict; IsLogin(registry, lower); }
      assert Failed(run.steps, Inspect(tag)) by { PushNeedsInspect(registry, run, lower); }
      var j :| 0 <= j < |run.steps| && run.steps[j] == Step(Inspect(tag), false);
      TagsExactly(base, run.steps[..j], tag);
    }
  }

  lemma PushNeedsInspect(registry: RegistryConfig, run: Run, lower: Lower)
    requires WellRun(registry, run, lower) && Ran(run.steps, Push(run.result.imageTag))
    ensures Failed(run.steps, Inspect(run.result.imageTag))
  {
  }

  /** Over any sequence of runs a tag is pushed once if it came to be there, and otherwise never. */
  lemma {:induction false} PushedAtMostOnce(
    base: set<string>, registry: RegistryConfig, runs: seq<Run>, tag: string, lower: Lower)
    requires Truthful(base, Flatten(runs)) && forall i :: 0 <= i < |runs| ==> WellRun(registry, runs[i], lower)
    ensures Pushes(Flatten(runs), tag) == if tag in TagsAfter(base, Flatten(runs)) && tag !in base then 1 else 0
    decreases |runs|
  {
    if runs != [] {
      var before, last := Flatten(runs[..|runs| - 1]), runs[|runs| - 1];
      TruthfulParts(base, before, last.steps);
      PushedAtMostOnce(base, registry, runs[..|runs| - 1], tag, lower);
      LogsAddUp(base, before, last.steps, tag);
      PushedWhenNew(TagsAfter(base, before), registry, last, tag, lower);
      TagsExactly(base, before, tag);
      TagsExactly(TagsAfter(base, before), last.steps, tag);
    }
  }

  /** The tags only grow from run to run, and a run without error leaves its tag there. */
  lemma {:induction false} TagsRemain(
    base: set<string>, registry: RegistryConfig, runs: seq<Run>, i: nat, lower: Lower)
    requires i < |runs| && runs[i].error.None?
    requires Truthful(base, Flatten(runs)) && forall k :: 0 <= k < |runs| ==> WellRun(registry, runs[k], lower)
    ensures runs[i].result.imageTag in TagsAfter(base, Flatten(runs))
    decreases |runs|
  {
    hide WellRun, Truthful, TagsAfter;
    var tag := runs[i].result.imageTag;
    var before, last := Flatten(runs[..|runs| - 1]), runs[|runs| - 1];
    TruthfulParts(base, before, last.steps);
    LogsAddUp(base, before, last.steps, tag);
    if i < |runs| - 1 {
      TagsRemain(base, registry, runs[..|runs| - 1], i, lower);
      TagsExactly(TagsAfter(base, before), last.steps, tag);
    } else {
      LeavesItsTag(TagsAfter(base, before), registry, last, lower);
    }
  }

  lemma LeavesItsTag(base: set<string>, registry: RegistryConfig, run: Run, lower: Lower)
    requires WellRun(registry, run, lower) && Truthful(base, run.steps) && run.error.None?
    ensures run.result.imageTag in TagsAfter(base, run.steps)
  {
    hide OwnCommands, Causes, BuildImageReference;
    var tag, steps := run.result.imageTag, run.steps;
    TagsExactly(base, steps, tag);
    if Succeeded(steps, Inspect(tag)) {
      var j :| 0 <= j < |steps| && steps[j] == Step(Inspect(tag), true);
      TagsExactly(base, steps[..j], tag);
      assert forall s :: s in steps[..j] ==> s in steps;
    }
  }

  /** Every login is with the configured host and credentials. */
  lemma LogsInAsConfigured(registry: RegistryConfig, run: Run, i: nat, lower: Lower)
    requires WellRun(registry, run, lower) && i < |run.steps| && run.steps[i].command.Login?
    ensures
      var login := run.steps[i].command;
      && login.username == registry.username && login.stdin == registry.password
      && login.host == NormalizeHost(registry.host, lower) && Credentials(registry)
  {
    hide NormalizeHost, Verdict, Credentials, InOrder;
    var c := run.steps[i].command;
    assert run.steps[i] == Step(c, true) || run.steps[i] == Step(c, false);
    assert Ran(run.steps, c);
  }

  /** The same project, the same service, and the same first twelve bytes of what git printed. */
  predicate SameSource(a: Run, b: Run, lower: Lower) {
    && ComponentOr(a.request.projectId, "project", lower) == ComponentOr(b.request.projectId, "project", lower)
    && ComponentOr(a.request.serviceId, "service", lower) == ComponentOr(b.request.serviceId, "service", lower)
    && AgreeUpTo(TrimBytes(a.printed), TrimBytes(b.printed), 12)
  }

  /** Once a run has ended without error, a later run for the same project and service in which git prints a commit
      of the same first twelve bytes, and that gets past the login, finds the image: it builds nothing, pushes
      nothing, and succeeds. */
  lemma LaterRunsReuse(
    base: set<string>, registry: RegistryConfig, runs: seq<Run>, i: nat, j: nat, lower: Lower)
    requires i < j < |runs|
    requires Truthful(base, Flatten(runs)) && forall k :: 0 <= k < |runs| ==> WellRun(registry, runs[k], lower)
    requires runs[i].error.None? && Succeeded(runs[j].steps, LoginTo(registry, lower))
    requires SameSource(runs[i], runs[j], lower)
    ensures runs[j].error.None? && runs[j].result.builder == "registry"
    ensures runs[j].result.imageTag == runs[i].result.imageTag
    ensures forall k :: 0 <= k < |runs[j].steps| ==>
      var c := runs[j].steps[k].command; !c.Nixpacks? && !c.DockerBuild? && !c.Push?
  {
    hide WellRun, Truthful, Flatten, TagsAfter, ComponentOr, TrimBytes, AgreeUpTo, LoginTo;
    SameTag(registry, runs[i], runs[j], lower);
    FlattenUpTo(base, runs, j);
    TagsRemain(base, registry, runs[..j], i, lower);
    FoundIsReused(TagsAfter(base, Flatten(runs[..j])), registry, runs[j], lower);
  }

  lemma TrimmedOnce(s: string)
    ensures TrimBytes(TrimBytes(s)) == TrimBytes(s)
  {
    hide TrimBytes, LeadingSpace, TrailingSpace;
    BytesAreTrimmed(s);
    BytesAreTrimmed(TrimBytes(s));
  }

  lemma SameTag(registry: RegistryConfig, a: Run, b: Run, lower: Lower)
    requires WellRun(registry, a, lower) && WellRun(registry, b, lower)
    requires a.error.None? && Succeeded(b.steps, LoginTo(registry, lower))
    requires SameSource(a, b, lower)
    ensures a.result.imageTag == b.result.imageTag
  {
    hide OwnCommands, ComponentOr, TrimBytes, AgreeUpTo, BuildImageReference, LoginTo, Credentials;
    assert a.result.imageTag != "" && b.result.imageTag != "";
    TrimmedOnce(a.printed);
    TrimmedOnce(b.printed);
    ReferencesAgreeExactly(registry,
      a.request.projectId, a.request.serviceId, a.result.commitSha,
      b.request.projectId, b.request.serviceId, b.result.commitSha, lower);
  }

  lemma {:induction false} FlattenUpTo(base: set<string>, runs: seq<Run>, j: nat)
    requires j < |runs| && Truthful(base, Flatten(runs))
    ensures Truthful(base, Flatten(runs[..j])) && Truthful(TagsAfter(base, Flatten(runs[..j])), runs[j].steps)
    decreases |runs|
  {
    var before := runs[..|runs| - 1];
    TruthfulParts(base, Flatten(before), runs[|runs| - 1].steps);
    if j < |before| {
      FlattenUpTo(base, before, j);
      assert before[..j] == runs[..j];
    }
  }

  lemma FoundIsReused(base: set<string>, registry: RegistryConfig, run: Run, lower: Lower)
    requires WellRun(registry, run, lower) && Truthful(base, run.steps)
    requires run.result.imageTag in base && Succeeded(run.steps, LoginTo(registry, lower))
    ensures run.error.None? && run.result.builder == "registry"
    ensures forall k :: 0 <= k < |run.steps| ==>
      var c := run.steps[k].command; !c.Nixpacks? && !c.DockerBuild? && !c.Push?
  {
    var tag, steps := run.result.imageTag, run.steps;
    if Failed(steps, Inspect(tag)) {
      var i :| 0 <= i < |steps| && steps[i] == Step(Inspect(tag), false);
      TagsExactly(base, steps[..i], tag);
      assert false;
    }
    OnlyInspected(registry, run, lower);
  }

  lemma OnlyInspected(registry: RegistryConfig, run: Run, lower: Lower)
    requires WellRun(registry, run, lower)
    requires !Failed(run.steps, Inspect(run.result.imageTag)) && Succeeded(run.steps, LoginTo(registry, lower))
    ensures run.error.None? && run.result.builder == "registry"
    ensures forall k :: 0 <= k < |run.steps| ==>
      var c := run.steps[k].command; !c.Nixpacks? && !c.DockerBuild? && !c.Push?
  {
    hide BuildImageReference, LoginTo, InOrder;
    var tag, dir := run.result.imageTag, run.request.repositoryDir;
    IsLogin(registry, lower);
    forall k | 0 <= k < |run.steps|
      ensures var c := run.steps[k].command; !c.Nixpacks? && !c.DockerBuild? && !c.Push?
    {
      var c := run.steps[k].command;
      assert run.steps[k] == Step(c, true) || run.steps[k] == Step(c, false);
      assert Ran(run.steps, c);
    }
  }

  /** A run that gets past the login ends by removing its local image, once; no other run removes any. */
  lemma RemovesItsImageOnce(registry: RegistryConfig, run: Run, lower: Lower)
    requires WellRun(registry, run, lower)
    ensures forall i :: 0 <= i < |run.steps| && run.steps[i].command.RemoveImage? ==>
      i == |run.steps| - 1 && run.steps[i].command.tag == run.result.imageTag
      && Succeeded(run.steps, LoginTo(registry, lower))
    ensures Succeeded(run.steps, LoginTo(registry, lower)) ==>
      run.steps != [] && run.steps[|run.steps| - 1].command == RemoveImage(run.result.imageTag)
  {
    hide BuildImageReference, LoginTo, Verdict;
    IsLogin(registry, lower);
    var steps, tag := run.steps, run.result.imageTag;
    forall i | 0 <= i < |steps| && steps[i].command.RemoveImage?
      ensures i == |steps| - 1 && steps[i].command.tag == tag && Succeeded(steps, LoginTo(registry, lower))
    {
      assert steps[i] == Step(RemoveImage(tag), true) || steps[i] == Step(RemoveImage(tag), false);
      assert steps[i] in steps && Ran(steps, RemoveImage(tag));
      var last := steps[|steps| - 1].command;
      assert Rank(last) <= 6;
    }
    if Succeeded(steps, LoginTo(registry, lower)) {
      assert Ran(steps, RemoveImage(tag));
      var i :| 0 <= i < |steps| && steps[i].command == RemoveImage(tag);
      assert i == |steps| - 1;
    }
  }
}
