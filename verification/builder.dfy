/** The template builder (gosh/sh.go:24-143): the base template and the four
    bake operations, each a pure function from template to template, and the
    dispatch that folds a list of modifiers over a template. */
module Builder {
  import opened Results
  import opened Modifiers

  /** The base template for program `cmd`, with the host environment snapshot
      `hostEnv` (read from the process in the source) and `[0]` as the only
      accepted exit code. */
  function Sh(cmd: string, hostEnv: Env): (t: Template)
    ensures t.cmd == cmd && t.args == [] && t.env == hostEnv
    ensures AcceptedCodes(t.opts) == [0]
    ensures forall f :: f != OkExitField ==> !Provides(t.opts, f)
  {
    Template(cmd, [], hostEnv, NoOpts.(okExit := Some([0])))
  }

  /** Appends `args` after the arguments already baked in. */
  function BakeArgs(t: Template, args: seq<string>): (r: Template)
    ensures |r.args| == |t.args| + |args|
    ensures r.args[..|t.args|] == t.args && r.args[|t.args|..] == args
    ensures r.cmd == t.cmd && r.env == t.env && r.opts == t.opts
  {
    t.(args := t.args + args)
  }

  /** Merges `overlay` into `env` key by key; an empty value deletes the key. */
  function OverlayEnv(env: Env, overlay: Env): (r: Env)
    ensures forall k :: k in overlay && overlay[k] == "" ==> k !in r
    ensures forall k :: k in overlay && overlay[k] != "" ==> k in r && r[k] == overlay[k]
    ensures forall k :: k !in overlay ==> (k in r <==> k in env)
    ensures forall k :: k !in overlay && k in env ==> r[k] == env[k]
  {
    map k | k in env.Keys + overlay.Keys && (k in overlay ==> overlay[k] != "")
      :: if k in overlay then overlay[k] else env[k]
  }

  /** The key-by-key loop of `bakeEnv`: visits the overlay's keys in an order
      the caller cannot predict and deletes or sets each one. Whatever the
      order, the outcome is the declarative overlay. */
  method OverlayEnvInPlace(env: Env, overlay: Env) returns (r: Env)
    ensures r == OverlayEnv(env, overlay)
  {
    r := env;
    var rest := overlay.Keys;
    while rest != {}
      invariant rest <= overlay.Keys
      invariant forall k :: k in overlay && k !in rest && overlay[k] == "" ==> k !in r
      invariant forall k :: k in overlay && k !in rest && overlay[k] != "" ==> k in r && r[k] == overlay[k]
      invariant forall k :: (k !in overlay || k in rest) ==> (k in r <==> k in env)
      invariant forall k :: (k !in overlay || k in rest) && k in env ==> r[k] == env[k]
      decreases rest
    {
      var k :| k in rest;
      if overlay[k] == "" {
        r := r - {k};
      } else {
        r := r[k := overlay[k]];
      }
      rest := rest - {k};
    }
    var want := OverlayEnv(env, overlay);
    assert r.Keys == want.Keys;
  }

  /** Overlays an environment on the template; nothing but the environment changes. */
  function BakeEnv(t: Template, overlay: Env): (r: Template)
    ensures r.cmd == t.cmd && r.args == t.args && r.opts == t.opts
    ensures r.env == OverlayEnv(t.env, overlay)
  {
    t.(env := OverlayEnv(t.env, overlay))
  }

  /** Empties the environment; nothing else changes. */
  function ClearEnv(t: Template): (r: Template)
    ensures r.env == map[]
    ensures r.cmd == t.cmd && r.args == t.args && r.opts == t.opts
  {
    t.(env := map[])
  }

  /** Overlays one options value: each field the overlay provides replaces the
      template's, every other field is kept. */
  function OverlayOpts(o: Opts, overlay: Opts): (r: Opts)
    ensures forall f :: Provides(overlay, f) ==> Get(r, f) == Get(overlay, f)
    ensures forall f :: !Provides(overlay, f) ==> Get(r, f) == Get(o, f)
  {
    Opts(
      if overlay.cwd != "" then overlay.cwd else o.cwd,
      if overlay.input.Some? then overlay.input else o.input,
      if overlay.out.Some? then overlay.out else o.out,
      if overlay.err.Some? then overlay.err else o.err,
      if overlay.okExit.Some? then overlay.okExit else o.okExit)
  }

  /** Overlays a list of options values in order. A field ends up with the value
      of the last overlay that provides it, and keeps its old value when none
      does; program, arguments and environment are untouched. */
  function BakeOpts(t: Template, overlays: seq<Opts>): (r: Template)
    ensures r.cmd == t.cmd && r.args == t.args && r.env == t.env
    ensures forall f ::
      (forall i :: 0 <= i < |overlays| ==> !Provides(overlays[i], f)) ==> Get(r.opts, f) == Get(t.opts, f)
    ensures forall f, i ::
      0 <= i < |overlays| && Provides(overlays[i], f) &&
      (forall j :: i < j < |overlays| ==> !Provides(overlays[j], f))
      ==> Get(r.opts, f) == Get(overlays[i], f)
    decreases |overlays|
  {
    if |overlays| == 0 then t
    else BakeOpts(t.(opts := OverlayOpts(t.opts, overlays[0])), overlays[1..])
  }

  /** Applies one modifier, as the type switch of `closure` does. */
  function ApplyModifier(t: Template, m: Modifier): (r: Result<Template, ShError>)
    ensures r.Err? <==> m.Unrecognized?
    ensures r.Err? ==> r.error == IncomprehensibleCommandModifier(m.value)
    ensures r.Ok? ==> r.value.cmd == t.cmd
  {
    match m
    case Arg(s) => Ok(BakeArgs(t, [s]))
    case EnvOverlay(overlay) => Ok(BakeEnv(t, overlay))
    case ClearEnvMarker => Ok(ClearEnv(t))
    case OptsOverlay(overlay) => Ok(BakeOpts(t, [overlay]))
    case Unrecognized(v) => Err(IncomprehensibleCommandModifier(v))
  }

  /** Index of the first unrecognised modifier, `|mods|` when there is none. */
  function FirstUnrecognized(mods: seq<Modifier>): (i: nat)
    ensures i <= |mods|
    ensures forall j :: 0 <= j < i ==> !mods[j].Unrecognized?
    ensures i < |mods| ==> mods[i].Unrecognized?
    decreases |mods|
  {
    if |mods| == 0 then 0
    else if mods[0].Unrecognized? then 0
    else 1 + FirstUnrecognized(mods[1..])
  }

  /** Folds the modifiers over the template in order. Baking fails exactly when
      some modifier is unrecognised, and then reports the first such one. */
  function Bake(t: Template, mods: seq<Modifier>): (r: Result<Template, ShError>)
    ensures r.Err? <==> exists i :: 0 <= i < |mods| && mods[i].Unrecognized?
    ensures r.Err? ==> FirstUnrecognized(mods) < |mods|
    ensures r.Err? ==> r.error == IncomprehensibleCommandModifier(mods[FirstUnrecognized(mods)].value)
    ensures r.Ok? ==> r.value.cmd == t.cmd
    decreases |mods|
  {
    if |mods| == 0 then Ok(t)
    else
      var t' :- ApplyModifier(t, mods[0]);
      Bake(t', mods[1..])
  }
}
