/** Properties of the template builder: how bakes compose, that the named bake
    operations agree with the generic modifier dispatch, and what a chain of
    bakes can and cannot change. */
module BuilderLemmas {
  import opened Results
  import opened Modifiers
  import opened Builder

  /** One string modifier per argument, as `Sh("ls")("-l", "-a")` passes them. */
  function ArgMods(args: seq<string>): (mods: seq<Modifier>)
    ensures |mods| == |args|
    ensures forall i :: 0 <= i < |args| ==> mods[i] == Arg(args[i])
  {
    seq(|args|, i requires 0 <= i < |args| => Arg(args[i]))
  }

  /** One options modifier per options value. */
  function OptsMods(overlays: seq<Opts>): (mods: seq<Modifier>)
    ensures |mods| == |overlays|
    ensures forall i :: 0 <= i < |overlays| ==> mods[i] == OptsOverlay(overlays[i])
  {
    seq(|overlays|, i requires 0 <= i < |overlays| => OptsOverlay(overlays[i]))
  }

  /** Baking a single modifier is applying it. */
  lemma BakeOne(t: Template, m: Modifier)
    ensures Bake(t, [m]) == ApplyModifier(t, m)
  {
    assert [m][1..] == [];
  }

  /** Baking a single options value overlays it. */
  lemma BakeOptsOne(t: Template, o: Opts)
    ensures BakeOpts(t, [o]) == t.(opts := OverlayOpts(t.opts, o))
  {
    assert [o][1..] == [];
  }

  /** Baking `a ++ b` in one call is baking `a`, then baking `b` into the result;
      an error in `a` stops before `b` is looked at. */
  lemma {:induction false} BakeSplit(t: Template, a: seq<Modifier>, b: seq<Modifier>)
    ensures Bake(t, a + b) ==
      (match Bake(t, a)
       case Ok(t') => Bake(t', b)
       case Err(e) => Err(e))
    decreases |a|
  {
    if |a| == 0 {
      assert a + b == b;
    } else {
      assert (a + b)[0] == a[0];
      assert (a + b)[1..] == a[1..] + b;
      match ApplyModifier(t, a[0])
      case Ok(t') => BakeSplit(t', a[1..], b);
      case Err(e) =>
    }
  }

  /** Baking strings through the dispatch appends them, in order, exactly as the
      named `BakeArgs` does. */
  lemma {:induction false} BakeArgMods(t: Template, args: seq<string>)
    ensures Bake(t, ArgMods(args)) == Ok(BakeArgs(t, args))
    decreases |args|
  {
    if |args| == 0 {
      assert t.args + args == t.args;
    } else {
      var mods := ArgMods(args);
      assert mods[1..] == ArgMods(args[1..]);
      BakeArgMods(BakeArgs(t, [args[0]]), args[1..]);
      assert (t.args + [args[0]]) + args[1..] == t.args + args;
    }
  }

  /** Baking options values through the dispatch, one modifier each, is the
      named `BakeOpts` over the whole list. */
  lemma {:induction false} BakeOptsMods(t: Template, overlays: seq<Opts>)
    ensures Bake(t, OptsMods(overlays)) == Ok(BakeOpts(t, overlays))
    decreases |overlays|
  {
    if |overlays| != 0 {
      var mods := OptsMods(overlays);
      assert mods[1..] == OptsMods(overlays[1..]);
      var t1 := t.(opts := OverlayOpts(t.opts, overlays[0]));
      BakeOptsOne(t, overlays[0]);
      BakeOptsMods(t1, overlays[1..]);
    }
  }

  /** The named bake operations build the same templates as the generic
      dispatch given one modifier of the matching kind per value. */
  lemma NamedBakesMatchDispatch(t: Template, args: seq<string>, vars: Env, overlays: seq<Opts>)
    ensures Bake(t, ArgMods(args)) == Ok(BakeArgs(t, args))
    ensures Bake(t, [EnvOverlay(vars)]) == Ok(BakeEnv(t, vars))
    ensures Bake(t, [ClearEnvMarker]) == Ok(ClearEnv(t))
    ensures Bake(t, OptsMods(overlays)) == Ok(BakeOpts(t, overlays))
  {
    BakeArgMods(t, args);
    BakeOptsMods(t, overlays);
  }

  /** Arguments accumulate in call order: `A("-x")("-y")` has `-x` before `-y`. */
  lemma ArgsAccumulateInOrder(a: Template, x: string, y: string)
    ensures Bake(a, [Arg(x)]).Ok?
    ensures Bake(Bake(a, [Arg(x)]).value, [Arg(y)]) == Ok(a.(args := a.args + [x, y]))
  {
    assert a.args + [x] + [y] == a.args + [x, y];
  }

  /** Two environment overlays in a row act as one overlay of their union, the
      second taking precedence on shared names. */
  lemma OverlayEnvCompose(env: Env, first: Env, second: Env)
    ensures OverlayEnv(OverlayEnv(env, first), second) == OverlayEnv(env, first + second)
  {
    var lhs := OverlayEnv(OverlayEnv(env, first), second);
    var rhs := OverlayEnv(env, first + second);
    assert forall k :: k in lhs <==> k in rhs;
    assert lhs.Keys == rhs.Keys;
  }

  /** Setting `FOO` and then baking `FOO` with an empty value leaves `FOO` unset;
      baking it twice with non-empty values keeps the second. */
  lemma EnvLastOverlayWins(t: Template, name: string, first: string, second: string)
    ensures name !in BakeEnv(BakeEnv(t, map[name := first]), map[name := ""]).env
    ensures second != "" ==>
      BakeEnv(BakeEnv(t, map[name := first]), map[name := second]).env[name] == second
  {
    OverlayEnvCompose(t.env, map[name := first], map[name := ""]);
    OverlayEnvCompose(t.env, map[name := first], map[name := second]);
  }

  /** After a clear-environment marker the environment holds exactly the
      non-empty entries of the overlays baked later, whatever came before. */
  lemma ClearEnvForgetsHistory(t: Template, before: seq<Modifier>, vars: Env)
    requires Bake(t, before).Ok?
    ensures Bake(t, before + [ClearEnvMarker, EnvOverlay(vars)]).Ok?
    ensures Bake(t, before + [ClearEnvMarker, EnvOverlay(vars)]).value.env ==
      map k | k in vars && vars[k] != "" :: vars[k]
  {
    BakeSplit(t, before, [ClearEnvMarker, EnvOverlay(vars)]);
    var t1 := Bake(t, before).value;
    assert [ClearEnvMarker, EnvOverlay(vars)][1..] == [EnvOverlay(vars)];
    BakeOne(ClearEnv(t1), EnvOverlay(vars));
    var r := Bake(t1, [ClearEnvMarker, EnvOverlay(vars)]).value;
    assert r == BakeEnv(ClearEnv(t1), vars);
    var want := map k | k in vars && vars[k] != "" :: vars[k];
    assert r.env.Keys == want.Keys;
  }

  /** Later options win field by field: `Opts{Cwd: "/tmp"}` then `Opts{OkExit: [1]}`
      keeps the working directory alongside the new exit codes. */
  lemma OptsOverlaysAccumulate(t: Template, dir: string, codes: seq<int>)
    requires dir != ""
    ensures BakeOpts(t, [NoOpts.(cwd := dir), NoOpts.(okExit := Some(codes))]).opts ==
      t.opts.(cwd := dir, okExit := Some(codes))
  {
    var os := [NoOpts.(cwd := dir), NoOpts.(okExit := Some(codes))];
    var r := BakeOpts(t, os).opts;
    assert Provides(os[0], CwdField);
    assert Provides(os[1], OkExitField);
    assert Get(r, CwdField) == Get(os[0], CwdField);
    assert Get(r, OkExitField) == Get(os[1], OkExitField);
    assert Get(r, InField) == Get(t.opts, InField);
    assert Get(r, OutField) == Get(t.opts, OutField);
    assert Get(r, ErrField) == Get(t.opts, ErrField);
  }

  /** Baking `DefaultIO` binds all three streams to the host's own and leaves
      the working directory and exit codes alone. */
  lemma BakeDefaultIO(t: Template)
    ensures BakeOpts(t, [DefaultIO]).opts ==
      t.opts.(input := Some(HostStdin), out := Some(HostStdout), err := Some(HostStderr))
  {
    var r := BakeOpts(t, [DefaultIO]).opts;
    assert Get(r, InField) == Get(DefaultIO, InField);
    assert Get(r, OutField) == Get(DefaultIO, OutField);
    assert Get(r, ErrField) == Get(DefaultIO, ErrField);
    assert Get(r, CwdField) == Get(t.opts, CwdField);
    assert Get(r, OkExitField) == Get(t.opts, OkExitField);
  }

  /** An options field, once provided, stays provided through any chain of
      bakes: an overlay cannot reset it to empty, so a working directory cannot
      be unset again. */
  lemma {:induction false} ProvidedFieldsStayProvided(t: Template, mods: seq<Modifier>, f: Field)
    requires Provides(t.opts, f)
    requires Bake(t, mods).Ok?
    ensures Provides(Bake(t, mods).value.opts, f)
    decreases |mods|
  {
    if |mods| != 0 {
      var t1 := ApplyModifier(t, mods[0]).value;
      if mods[0].OptsOverlay? {
        var o := mods[0].options;
        BakeOptsOne(t, o);
      }
      assert Provides(t1.opts, f);
      ProvidedFieldsStayProvided(t1, mods[1..], f);
    }
  }

  /** The accepted exit codes change only through an options overlay that
      provides them; in particular a command from `Sh` keeps `[0]` until then. */
  lemma {:induction false} OkExitKeptUnlessProvided(t: Template, mods: seq<Modifier>)
    requires Bake(t, mods).Ok?
    requires forall i :: 0 <= i < |mods| && mods[i].OptsOverlay? ==> mods[i].options.okExit.None?
    ensures Bake(t, mods).value.opts.okExit == t.opts.okExit
    decreases |mods|
  {
    if |mods| != 0 {
      var t1 := ApplyModifier(t, mods[0]).value;
      if mods[0].OptsOverlay? {
        var o := mods[0].options;
        BakeOptsOne(t, o);
      }
      assert t1.opts.okExit == t.opts.okExit;
      OkExitKeptUnlessProvided(t1, mods[1..]);
    }
  }

  /** Two commands derived from one ancestor by different strings each see only
      their own string. This holds of the value model; it is what the source
      intends, not what its shared slices guarantee. */
  lemma SiblingsIndependent(a: Template, x: string, y: string)
    requires x != y && x !in a.args && y !in a.args
    ensures Bake(a, [Arg(x)]).Ok? && Bake(a, [Arg(y)]).Ok?
    ensures x in Bake(a, [Arg(x)]).value.args && y !in Bake(a, [Arg(x)]).value.args
    ensures y in Bake(a, [Arg(y)]).value.args && x !in Bake(a, [Arg(y)]).value.args
  {
    BakeOne(a, Arg(x));
    BakeOne(a, Arg(y));
    var b := Bake(a, [Arg(x)]).value;
    var c := Bake(a, [Arg(y)]).value;
    assert b.args == a.args + [x];
    assert c.args == a.args + [y];
    assert b.args[|a.args|] == x;
    assert c.args[|a.args|] == y;
  }
}
