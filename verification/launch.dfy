/** The execution side of a Command (gosh/sh.go:41-73, 145-245): the launch
    plan `Start` derives from a template, the exit-code check of `Run`, the
    capturing `Output` and `CombinedOutput`, and the call that either bakes
    or runs. Spawning the process is not modelled: the exit code it would
    report and the text it would write are parameters. */
module Launch {
  import opened Results
  import opened Modifiers
  import opened Builder

  /** Where a process stream goes: left to the process's default, handed to
      the stream adapter for an endpoint, or (for stderr) the very writer used
      for stdout. */
  datatype Sink = Inherit | Adapted(endpoint: Endpoint) | SameAsStdout

  datatype Stdio = Stdio(stdin: Sink, stdout: Sink, stderr: Sink)

  /** What `Start` hands to the process-spawning primitive. `argv` holds the
      baked arguments only; the primitive puts the program name before them. */
  datatype LaunchPlan = LaunchPlan(
    path: string,
    argv: seq<string>,
    env: seq<string>,
    dir: Option<string>,
    stdio: Stdio)

  /** The endpoint a sink ends up writing to, `None` when the default is kept. */
  function Target(s: Sink, stdout: Sink): Option<Endpoint> {
    match s
    case Inherit => None
    case Adapted(e) => Some(e)
    case SameAsStdout => if stdout.Adapted? then Some(stdout.endpoint) else None
  }

  /** One `name=value` entry of a process environment vector. */
  function EnvEntry(name: string, value: string): string {
    name + "=" + value
  }

  predicate NoDuplicates(names: seq<string>) {
    forall i, j :: 0 <= i < j < |names| ==> names[i] != names[j]
  }

  /** `names` lists every variable of `env` exactly once, in some order. */
  ghost predicate Enumerates(names: seq<string>, env: Env) {
    NoDuplicates(names) && (forall k :: k in env <==> k in names)
  }

  /** `vec` holds exactly one entry per variable of `env`, in some order. */
  ghost predicate FlattensEnv(env: Env, vec: seq<string>) {
    exists names :: Enumerates(names, env) && |vec| == |names| &&
      forall i :: 0 <= i < |names| ==> names[i] in env && vec[i] == EnvEntry(names[i], env[names[i]])
  }

  /** Flattens the environment map into an environment vector. The map is
      visited in an unspecified order, which `names` reports. */
  method FlattenEnv(env: Env) returns (vec: seq<string>, names: seq<string>)
    ensures Enumerates(names, env)
    ensures |vec| == |names| == |env|
    ensures forall i :: 0 <= i < |names| ==> names[i] in env && vec[i] == EnvEntry(names[i], env[names[i]])
  {
    vec, names := [], [];
    var rest := env.Keys;
    while rest != {}
      invariant rest <= env.Keys
      invariant NoDuplicates(names)
      invariant forall k :: k in env <==> (k in rest || k in names)
      invariant forall k :: k in rest ==> k !in names
      invariant |vec| == |names| && |names| + |rest| == |env|
      invariant forall i :: 0 <= i < |names| ==> names[i] in env && vec[i] == EnvEntry(names[i], env[names[i]])
      decreases rest
    {
      var k :| k in rest;
      vec := vec + [EnvEntry(k, env[k])];
      names := names + [k];
      rest := rest - {k};
    }
  }

  /** The stream bindings of `Start`. A Command as input is refused as not yet
      implemented; every other configured endpoint goes to its stream, and
      stderr shares stdout's writer exactly when `Err` is the same object as
      `Out`. */
  function StdioPlan(o: Opts): (r: Result<Stdio, ShError>)
    ensures r.Err? <==> PipedInput(o)
    ensures r.Err? ==> r.error == NotYetImplemented
    ensures r.Ok? ==> !r.value.stdin.SameAsStdout? && Target(r.value.stdin, Inherit) == o.input
    ensures r.Ok? ==> !r.value.stdout.SameAsStdout? && Target(r.value.stdout, Inherit) == o.out
    ensures r.Ok? ==> Target(r.value.stderr, r.value.stdout) == o.err
    ensures r.Ok? ==> (r.value.stderr == SameAsStdout <==> o.err.Some? && o.err == o.out)
  {
    if PipedInput(o) then Err(NotYetImplemented)
    else
      var stdin := if o.input.Some? then Adapted(o.input.value) else Inherit;
      var stdout := if o.out.Some? then Adapted(o.out.value) else Inherit;
      var stderr :=
        if o.err.None? then Inherit
        else if o.err == o.out then SameAsStdout
        else Adapted(o.err.value);
      Ok(Stdio(stdin, stdout, stderr))
  }

  /** Turns a template into a launch plan: program and arguments as baked, one
      environment entry per variable, the working directory only when one was
      given, and the stream bindings of `StdioPlan`. */
  method Start(t: Template) returns (r: Result<LaunchPlan, ShError>)
    ensures r.Err? <==> PipedInput(t.opts)
    ensures r.Err? ==> r.error == NotYetImplemented
    ensures r.Ok? ==> r.value.path == t.cmd && r.value.argv == t.args
    ensures r.Ok? ==> FlattensEnv(t.env, r.value.env) && |r.value.env| == |t.env|
    ensures r.Ok? ==> (r.value.dir.Some? <==> t.opts.cwd != "")
    ensures r.Ok? && r.value.dir.Some? ==> r.value.dir.value == t.opts.cwd
    ensures r.Ok? ==> StdioPlan(t.opts) == Ok(r.value.stdio)
  {
    var vec, names := FlattenEnv(t.env);
    assert Enumerates(names, t.env);
    var dir := if t.opts.cwd != "" then Some(t.opts.cwd) else None;
    match StdioPlan(t.opts)
    case Err(e) =>
      r := Err(e);
    case Ok(stdio) =>
      r := Ok(LaunchPlan(t.cmd, t.args, vec, dir, stdio));
  }

  /** The exit-code check of `Run`: success exactly when the code is one of the
      accepted codes, otherwise a failure naming the program and the code. */
  function Classify(cmd: string, okExit: seq<int>, code: int): (r: Result<(), ShError>)
    ensures r.Ok? <==> code in okExit
    ensures r.Err? ==> r.error == FailureExitCode(cmd, code)
    decreases |okExit|
  {
    if |okExit| == 0 then Err(FailureExitCode(cmd, code))
    else if okExit[0] == code then Ok(())
    else Classify(cmd, okExit[1..], code)
  }

  /** Starts the command and checks the exit code `exitCode` it reports.
      `plan` is what was handed to the spawning primitive, or the reason
      nothing was. */
  method Run(t: Template, exitCode: int) returns (r: Result<(), ShError>, plan: Result<LaunchPlan, ShError>)
    ensures PipedInput(t.opts) ==> r == Err(NotYetImplemented)
    ensures !PipedInput(t.opts) ==> (r.Ok? <==> exitCode in AcceptedCodes(t.opts))
    ensures !PipedInput(t.opts) && r.Err? ==> r.error == FailureExitCode(t.cmd, exitCode)
    ensures plan.Err? <==> PipedInput(t.opts)
    ensures plan.Ok? ==> plan.value.path == t.cmd && plan.value.argv == t.args
    ensures plan.Ok? ==> FlattensEnv(t.env, plan.value.env)
    ensures plan.Ok? ==> (plan.value.dir.Some? <==> t.opts.cwd != "")
    ensures plan.Ok? && plan.value.dir.Some? ==> plan.value.dir.value == t.opts.cwd
    ensures plan.Ok? ==> StdioPlan(t.opts) == Ok(plan.value.stdio)
  {
    plan := Start(t);
    if plan.Err? {
      return Err(plan.error), plan;
    }
    r := Classify(t.cmd, AcceptedCodes(t.opts), exitCode);
  }

  /** The template `Output` runs: stdout bound to a fresh capture buffer. */
  function CaptureStdout(t: Template, buf: nat): Template {
    BakeOpts(t, [NoOpts.(out := Some(Buffer(buf)))])
  }

  /** The template `CombinedOutput` runs: stdout and stderr bound to one fresh
      capture buffer. */
  function CaptureCombined(t: Template, buf: nat): Template {
    BakeOpts(t, [NoOpts.(out := Some(Buffer(buf)), err := Some(Buffer(buf)))])
  }

  /** Runs the command with stdout captured in buffer `buf` and returns what the
      process wrote there (`written`), failing as `Run` does. The buffer is a
      fresh object, so it is never the configured stderr endpoint. The launch
      plan is the template's own except that stdout goes to the buffer; stderr
      keeps its configured endpoint and is not merged into the buffer. */
  method Output(t: Template, buf: nat, exitCode: int, written: string)
    returns (r: Result<string, ShError>, plan: Result<LaunchPlan, ShError>)
    requires t.opts.err != Some(Buffer(buf))
    ensures r.Ok? <==> !PipedInput(t.opts) && exitCode in AcceptedCodes(t.opts)
    ensures r.Ok? ==> r.value == written
    ensures r.Err? ==> r.error == if PipedInput(t.opts) then NotYetImplemented else FailureExitCode(t.cmd, exitCode)
    ensures plan.Err? <==> PipedInput(t.opts)
    ensures plan.Ok? ==> plan.value.path == t.cmd && plan.value.argv == t.args
    ensures plan.Ok? ==> FlattensEnv(t.env, plan.value.env)
    ensures plan.Ok? ==> (plan.value.dir.Some? <==> t.opts.cwd != "")
    ensures plan.Ok? && plan.value.dir.Some? ==> plan.value.dir.value == t.opts.cwd
    ensures plan.Ok? ==> !plan.value.stdio.stdin.SameAsStdout?
    ensures plan.Ok? ==> Target(plan.value.stdio.stdin, Inherit) == t.opts.input
    ensures plan.Ok? ==> plan.value.stdio.stdout == Adapted(Buffer(buf))
    ensures plan.Ok? ==> plan.value.stdio.stderr != SameAsStdout
    ensures plan.Ok? ==> Target(plan.value.stdio.stderr, plan.value.stdio.stdout) == t.opts.err
  {
    var capture := CaptureStdout(t, buf);
    assert Get(capture.opts, CwdField) == Get(t.opts, CwdField);
    assert Get(capture.opts, InField) == Get(t.opts, InField);
    assert Get(capture.opts, OutField) == EndpointValue(Some(Buffer(buf)));
    assert Get(capture.opts, ErrField) == Get(t.opts, ErrField);
    assert Get(capture.opts, OkExitField) == Get(t.opts, OkExitField);
    var ran;
    ran, plan := Run(capture, exitCode);
    if ran.Err? {
      return Err(ran.error), plan;
    }
    r := Ok(written);
  }

  /** As `Output`, with stdout and stderr both captured in buffer `buf`: the
      launch plan sends stdout to the buffer and stderr to that same writer. */
  method CombinedOutput(t: Template, buf: nat, exitCode: int, written: string)
    returns (r: Result<string, ShError>, plan: Result<LaunchPlan, ShError>)
    ensures r.Ok? <==> !PipedInput(t.opts) && exitCode in AcceptedCodes(t.opts)
    ensures r.Ok? ==> r.value == written
    ensures r.Err? ==> r.error == if PipedInput(t.opts) then NotYetImplemented else FailureExitCode(t.cmd, exitCode)
    ensures plan.Err? <==> PipedInput(t.opts)
    ensures plan.Ok? ==> plan.value.path == t.cmd && plan.value.argv == t.args
    ensures plan.Ok? ==> FlattensEnv(t.env, plan.value.env)
    ensures plan.Ok? ==> (plan.value.dir.Some? <==> t.opts.cwd != "")
    ensures plan.Ok? && plan.value.dir.Some? ==> plan.value.dir.value == t.opts.cwd
    ensures plan.Ok? ==> !plan.value.stdio.stdin.SameAsStdout?
    ensures plan.Ok? ==> Target(plan.value.stdio.stdin, Inherit) == t.opts.input
    ensures plan.Ok? ==> plan.value.stdio.stdout == Adapted(Buffer(buf))
    ensures plan.Ok? ==> plan.value.stdio.stderr == SameAsStdout
  {
    var capture := CaptureCombined(t, buf);
    assert Get(capture.opts, CwdField) == Get(t.opts, CwdField);
    assert Get(capture.opts, InField) == Get(t.opts, InField);
    assert Get(capture.opts, OutField) == EndpointValue(Some(Buffer(buf)));
    assert Get(capture.opts, ErrField) == EndpointValue(Some(Buffer(buf)));
    assert Get(capture.opts, OkExitField) == Get(t.opts, OkExitField);
    var ran;
    ran, plan := Run(capture, exitCode);
    if ran.Err? {
      return Err(ran.error), plan;
    }
    r := Ok(written);
  }

  /** Calling a Command: with no modifiers it runs (and yields no Command);
      otherwise it bakes the modifiers into a new Command. */
  method Call(t: Template, mods: seq<Modifier>, exitCode: int) returns (r: Result<Option<Template>, ShError>)
    ensures |mods| == 0 ==> (r.Ok? <==> !PipedInput(t.opts) && exitCode in AcceptedCodes(t.opts))
    ensures |mods| == 0 && r.Ok? ==> r.value == None
    ensures |mods| == 0 && r.Err? ==>
      r.error == if PipedInput(t.opts) then NotYetImplemented else FailureExitCode(t.cmd, exitCode)
    ensures |mods| > 0 ==> (r.Ok? <==> Bake(t, mods).Ok?)
    ensures |mods| > 0 && r.Ok? ==> r.value == Some(Bake(t, mods).value)
    ensures |mods| > 0 && r.Err? ==> r.error == Bake(t, mods).error
  {
    if |mods| == 0 {
      var ran, _ := Run(t, exitCode);
      if ran.Err? {
        return Err(ran.error);
      }
      return Ok(None);
    }
    match Bake(t, mods)
    case Ok(t') =>
      r := Ok(Some(t'));
    case Err(e) =>
      r := Err(e);
  }
}
