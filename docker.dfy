/** The decision logic of the harness's container wrapper
    (`docker_manager.rs`): container naming, the classification of a
    finished process into `Ok`/`Err`, the argument vectors it builds, and
    the per-worker container map kept by `setup`. Spawning processes is not
    modelled: what a process reported (or that it could not be started) is
    a parameter.
 */
module Docker {
  import opened Wrappers
  import opened Text

  const IMAGE_NAME := "benchmark-libjxl-image"
  const CONTAINER_NAME := "benchmark-libjxl-container"

  /** What `Command::output` reports for a process that ran. */
  datatype ProcessOutput = ProcessOutput(success: bool, stdout: string, stderr: string)

  /** A process that ran, or the error of one that could not be started. */
  type Spawn = Result<ProcessOutput, string>

  /** The container of worker `id` (`DockerManager::new`). */
  function ContainerName(id: nat): (name: string)
    ensures StartsWith(name, CONTAINER_NAME + "-")
    ensures name[|CONTAINER_NAME| + 1..] == NatToString(id)
  {
    CONTAINER_NAME + "-" + NatToString(id)
  }

  /** Distinct workers get distinct containers. */
  lemma ContainerNameInjective(a: nat, b: nat)
    requires ContainerName(a) == ContainerName(b)
    ensures a == b
  {
    assert NatToString(a) == ContainerName(a)[|CONTAINER_NAME| + 1..];
    NatToStringInjective(a, b);
  }

  /** `execute_command`: a process that could not be started panics (its
      `expect`); otherwise success gives its stdout and failure its stderr. */
  function ExecuteCommand(spawn: Spawn): (r: Outcome<Result<string, string>>)
    ensures r.Value? <==> spawn.Ok?
    ensures r.Value? ==> (r.value.Ok? <==> spawn.value.success)
    ensures r.Value? && r.value.Ok? ==> r.value.value == spawn.value.stdout
    ensures r.Value? && r.value.Err? ==> r.value.error == spawn.value.stderr
  {
    match spawn
    case Err(e) => Panic("failed to execute command")
    case Ok(out) => Value(if out.success then Ok(out.stdout) else Err(out.stderr))
  }

  /** `execute_in_container`: a start failure is the outer error; a failing
      process reports its stderr, or its stdout when stderr is empty. */
  function ExecuteInContainer(spawn: Spawn): (r: Result<Result<string, string>, string>)
    ensures r.Err? <==> spawn.Err?
    ensures r.Ok? ==> (r.value.Ok? <==> spawn.value.success)
    ensures r.Ok? && r.value.Ok? ==> r.value.value == spawn.value.stdout
    ensures r.Ok? && r.value.Err? && spawn.value.stderr != "" ==> r.value.error == spawn.value.stderr
    ensures r.Ok? && r.value.Err? && spawn.value.stderr == "" ==> r.value.error == spawn.value.stdout
  {
    match spawn
    case Err(e) => Err(e)
    case Ok(out) =>
      if out.success then Ok(Ok(out.stdout))
      else if |out.stderr| > 0 then Ok(Err(out.stderr))
      else Ok(Err(out.stdout))
  }

  /** A failing process always reports something when either stream has
      something: its error text is empty only if both streams are. */
  lemma ExecuteInContainerErrorText(out: ProcessOutput)
    requires !out.success
    ensures ExecuteInContainer(Ok(out)).value.Err?
    ensures ExecuteInContainer(Ok(out)).value.error == "" <==> out.stdout == "" && out.stderr == ""
  {
  }

  /** `std::process::Command`, as far as the argument vector goes. */
  class Command {
    const program: string
    var args: seq<string>

    constructor (program: string)
      ensures this.program == program && args == []
    {
      this.program := program;
      args := [];
    }

    /** `Command::arg`. */
    method Arg(a: string)
      modifies this
      ensures args == old(args) + [a]
    {
      args := args + [a];
    }

    /** `Command::args`. */
    method Args(more: seq<string>)
      modifies this
      ensures args == old(args) + more
    {
      var i := 0;
      while i < |more|
        invariant 0 <= i <= |more|
        invariant args == old(args) + more[..i]
      {
        Arg(more[i]);
        i := i + 1;
      }
      assert more[..|more|] == more;
    }
  }

  /** The arguments `execute_in_container` gives `docker`. */
  method ExecArgs(container: string, subcommand: string, args: seq<string>) returns (argv: seq<string>)
    ensures |argv| == 5 + |args|
    ensures argv[..3] == ["exec", "-w", "/temp"]
    ensures argv[3] == container && argv[4] == subcommand && argv[5..] == args
  {
    var command := new Command("docker");
    command.Arg("exec");
    command.Arg("-w");
    command.Arg("/temp");
    command.Arg(container);
    command.Arg(subcommand);
    command.Args(args);
    argv := command.args;
  }

  /** The directory `execute_cjxl` creates for `output`: `output` with its
      last '/'-component removed. */
  function MkdirTarget(output: string): string {
    var parts := Split(output, '/');
    Join(parts[..|parts| - 1], '/')
  }

  /** The mkdir target is the directory part of `dir/name`. */
  lemma {:induction false} MkdirTargetOfPath(dir: string, name: string)
    requires '/' !in name
    ensures MkdirTarget(dir + "/" + name) == dir
  {
    assert dir + "/" + name == dir + ['/'] + name;
    SplitConcat(dir, name, '/');
    SplitNoSeparator(name, '/');
    var parts := Split(dir, '/') + [name];
    assert parts[..|parts| - 1] == Split(dir, '/');
    JoinSplit(dir, '/');
  }

  /** A bare file name has an empty mkdir target. */
  lemma MkdirTargetOfBareName(name: string)
    requires '/' !in name
    ensures MkdirTarget(name) == ""
  {
    SplitNoSeparator(name, '/');
    assert [name][..0] == [];
  }

  const CJXL := "/libjxl/build/tools/cjxl"

  /** The arguments `execute_cjxl` passes to the encoder; `distance` is the
      distance as printed. */
  function CjxlArgs(input: string, output: string, distance: string, effort: nat): (args: seq<string>)
    ensures |args| == 4 && args[0] == input && args[1] == output
    ensures StartsWith(args[2], "--distance=") && args[2][11..] == distance
    ensures StartsWith(args[3], "--effort=") && ParseU32(args[3][9..]) == (if effort <= U32_MAX then Some(effort) else None)
  {
    ParseUnsignedNatToString(effort, U32_MAX);
    [input, output, "--distance=" + distance, "--effort=" + NatToString(effort)]
  }

  /** The two commands `execute_cjxl` issues and what it returns. */
  datatype CjxlRun = CjxlRun(commands: seq<seq<string>>, result: Result<Result<string, string>, string>)

  /** `execute_cjxl`: first `mkdir -p` of the output's directory, whose own
      result is ignored unless the process could not be started, then the
      encoder, whose classified result is returned. */
  method ExecuteCjxl(container: string, input: string, output: string, distance: string, effort: nat,
                     mkdir: Spawn, cjxl: Spawn) returns (run: CjxlRun)
    ensures 1 <= |run.commands| <= 2
    ensures mkdir.Err? ==> run.result == Err(mkdir.error) && |run.commands| == 1
    ensures mkdir.Ok? ==> run.result == ExecuteInContainer(cjxl) && |run.commands| == 2
    ensures run.commands[0] == ["exec", "-w", "/temp", container, "mkdir", "-p", MkdirTarget(output)]
    ensures |run.commands| == 2 ==>
      run.commands[1] == ["exec", "-w", "/temp", container, CJXL] + CjxlArgs(input, output, distance, effort)
  {
    var mkdirArgv := ExecArgs(container, "mkdir", ["-p", MkdirTarget(output)]);
    assert mkdirArgv == mkdirArgv[..3] + [mkdirArgv[3], mkdirArgv[4]] + mkdirArgv[5..];
    var made := ExecuteInContainer(mkdir);
    if made.Err? {
      return CjxlRun([mkdirArgv], Err(made.error));
    }
    var cjxlArgv := ExecArgs(container, CJXL, CjxlArgs(input, output, distance, effort));
    assert cjxlArgv == cjxlArgv[..3] + [cjxlArgv[3], cjxlArgv[4]] + cjxlArgv[5..];
    run := CjxlRun([mkdirArgv, cjxlArgv], ExecuteInContainer(cjxl));
  }

  /** `apply_local_as_diff`: the copy and the apply are run for their side
      effects only; unless one of them cannot be started, the result is
      always the same success message. */
  function ApplyLocalAsDiff(copy: Spawn, apply: Spawn): (r: Outcome<Result<string, string>>)
    ensures r.Value? <==> copy.Ok? && apply.Ok?
    ensures r.Value? ==> r.value == Ok("Applied local folder as diff")
  {
    match ExecuteCommand(copy)
    case Panic(m) => Panic(m)
    case Value(_) =>
      match ExecuteCommand(apply)
      case Panic(m) => Panic(m)
      case Value(_) => Value(Ok("Applied local folder as diff"))
  }

  /** The script `build_libjxl` runs: its last ';'-separated command starts
      with `exit 0`, so a failing build still exits successfully. */
  const BUILD_SCRIPT := "cd /libjxl && SKIP_TEST=1 ./ci.sh opt; exit 0 && cd -"

  lemma BuildScriptEndsInExitZero()
    ensures |Split(BUILD_SCRIPT, ';')| == 2
    ensures StartsWith(Split(BUILD_SCRIPT, ';')[1], " exit 0")
  {
    var a := "cd /libjxl && SKIP_TEST=1 ./ci.sh opt";
    var b := " exit 0 && cd -";
    BuildScriptPieces(a, b);
    SplitConcat(a, b, ';');
    SplitNoSeparator(a, ';');
    SplitNoSeparator(b, ';');
    assert Split(BUILD_SCRIPT, ';') == [a, b];
  }

  lemma BuildScriptPieces(a: string, b: string)
    requires a == "cd /libjxl && SKIP_TEST=1 ./ci.sh opt" && b == " exit 0 && cd -"
    ensures BUILD_SCRIPT == a + [';'] + b && ';' !in a && ';' !in b
  {
    assert forall i :: 0 <= i < |a| ==> a[i] != ';';
    assert forall i :: 0 <= i < |b| ==> b[i] != ';';
  }

  /** `DockerManager`: one per worker, with the map of containers it started. */
  class DockerManager {
    const id: nat
    const dockerfile: string
    const imageName: Option<string>
    const containerName: Option<string>
    var containers: map<nat, string>

    /** `DockerManager::new`. */
    constructor (dockerfile: string, id: nat)
      ensures this.id == id && this.dockerfile == dockerfile
      ensures imageName == Some(IMAGE_NAME) && containerName == Some(ContainerName(id))
      ensures containers == map[]
    {
      this.id := id;
      this.dockerfile := dockerfile;
      imageName := Some(IMAGE_NAME);
      containerName := Some(ContainerName(id));
      containers := map[];
    }

    /** `setup`: build the image, record `workerId -> container`, start the
        container. A failed build returns before the map is touched; a
        failed start is returned after it. */
    method Setup(workerId: nat, build: Spawn, start: Spawn) returns (r: Outcome<Result<(), string>>)
      requires containerName.Some?
      modifies this
      ensures build.Err? ==> r.Panic? && containers == old(containers)
      ensures build.Ok? && !build.value.success ==>
        r == Value(Err("Failed to build docker image")) && containers == old(containers)
      ensures build.Ok? && build.value.success ==>
        containers == old(containers)[workerId := containerName.value]
        && r == (match ExecuteCommand(start)
                 case Panic(m) => Panic(m)
                 case Value(res) => Value(if res.Ok? then Ok(()) else Err(res.error)))
    {
      var built := ExecuteCommand(build);
      if built.Panic? {
        return Panic(built.reason);
      }
      if built.value.Err? {
        return Value(Err("Failed to build docker image"));
      }
      containers := containers[workerId := containerName.value];
      var started := ExecuteCommand(start);
      if started.Panic? {
        return Panic(started.reason);
      }
      if started.value.Err? {
        return Value(Err(started.value.error));
      }
      r := Value(Ok(()));
    }
  }
}
