/** Properties of the execution side: which exit codes a command accepts, and
    where the capturing runs send stdout and stderr. */
module LaunchLemmas {
  import opened Results
  import opened Modifiers
  import opened Builder
  import opened BuilderLemmas
  import opened Launch

  /** A command built by `Sh` and baked with modifiers that never provide exit
      codes accepts exactly code 0; any other code fails naming the program. */
  lemma DefaultAcceptsOnlyZero(cmd: string, hostEnv: Env, mods: seq<Modifier>, code: int)
    requires Bake(Sh(cmd, hostEnv), mods).Ok?
    requires forall i :: 0 <= i < |mods| && mods[i].OptsOverlay? ==> mods[i].options.okExit.None?
    ensures var t := Bake(Sh(cmd, hostEnv), mods).value;
      Classify(t.cmd, AcceptedCodes(t.opts), code) ==
        if code == 0 then Ok(()) else Err(FailureExitCode(cmd, code))
  {
    OkExitKeptUnlessProvided(Sh(cmd, hostEnv), mods);
  }

  /** Exit codes, once provided, replace the default entirely: the command
      accepts exactly the listed codes, so 0 only when listed and nothing at
      all for an empty list. */
  lemma ProvidedOkExitReplacesDefault(t: Template, codes: seq<int>, code: int)
    ensures var r := BakeOpts(t, [NoOpts.(okExit := Some(codes))]);
      Classify(r.cmd, AcceptedCodes(r.opts), code).Ok? <==> code in codes
    ensures codes == [] ==>
      var r := BakeOpts(t, [NoOpts.(okExit := Some(codes))]);
      Classify(r.cmd, AcceptedCodes(r.opts), code).Err?
  {
    BakeOptsOne(t, NoOpts.(okExit := Some(codes)));
  }

  /** `Output` redirects stdout into its buffer and leaves stderr where it was
      configured: the fresh buffer is never merged with stderr. */
  lemma OutputCapturesOnlyStdout(t: Template, buf: nat)
    requires !PipedInput(t.opts)
    requires t.opts.err != Some(Buffer(buf))
    ensures StdioPlan(CaptureStdout(t, buf).opts).Ok?
    ensures var s := StdioPlan(CaptureStdout(t, buf).opts).value;
      s.stdout == Adapted(Buffer(buf)) && s.stderr != SameAsStdout &&
      Target(s.stderr, s.stdout) == t.opts.err
  {
    BakeOptsOne(t, NoOpts.(out := Some(Buffer(buf))));
  }

  /** `CombinedOutput` binds one buffer to both streams, so stderr shares
      stdout's writer. */
  lemma CombinedOutputMergesStreams(t: Template, buf: nat)
    requires !PipedInput(t.opts)
    ensures StdioPlan(CaptureCombined(t, buf).opts).Ok?
    ensures var s := StdioPlan(CaptureCombined(t, buf).opts).value;
      s.stdout == Adapted(Buffer(buf)) && s.stderr == SameAsStdout
  {
    BakeOptsOne(t, NoOpts.(out := Some(Buffer(buf)), err := Some(Buffer(buf))));
  }

  /** A command baked with `DefaultIO` uses the host's three streams, each
      through its own writer: the host's stdout and stderr are distinct
      objects and are not merged. */
  lemma DefaultIOUsesHostStreams(t: Template)
    ensures StdioPlan(BakeOpts(t, [DefaultIO]).opts) ==
      Ok(Stdio(Adapted(HostStdin), Adapted(HostStdout), Adapted(HostStderr)))
  {
    BakeDefaultIO(t);
  }

  /** Worked exit-code examples: under the default codes 0 passes and 2
      fails with code 2; under `OkExit: [0, 2]` the code 2 passes. */
  lemma ExitCodeExamples(cmd: string, hostEnv: Env)
    ensures Classify(cmd, AcceptedCodes(Sh(cmd, hostEnv).opts), 0) == Ok(())
    ensures Classify(cmd, AcceptedCodes(Sh(cmd, hostEnv).opts), 2) == Err(FailureExitCode(cmd, 2))
    ensures var t := BakeOpts(Sh(cmd, hostEnv), [NoOpts.(okExit := Some([0, 2]))]);
      Classify(cmd, AcceptedCodes(t.opts), 2) == Ok(())
  {
    ProvidedOkExitReplacesDefault(Sh(cmd, hostEnv), [0, 2], 2);
  }
}
