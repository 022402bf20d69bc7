# gosh command builder, modelled in Dafny

The `gosh` package describes an external command as a template: a program
name, an ordered argument list, an environment map, and options for the
working directory, the stdin/stdout/stderr bindings and the exit codes that
count as success. Calling a Command with modifiers bakes them into a new
template. Calling it with no arguments runs it. `Start` turns a template into
a launch plan, and `Run` checks the exit code against `OkExit`.

This project models that core with immutable values:

- `modifiers.dfy` (module `Modifiers`) holds the data model of
  `gosh/sh_modifiers.go`: `Template`, `Opts`, `Env`, `DefaultIO`, the stream
  endpoints, the modifier kinds and the package's errors.
- `builder.dfy` (module `Builder`) holds `Sh`, the four bake operations and the
  dispatch that folds a modifier list over a template (`gosh/sh.go:24-143`).
- `launch.dfy` (module `Launch`) holds the launch plan of `Start`, the exit-code
  check of `Run`, `Output`, `CombinedOutput` and the Command call itself.
- `builder_lemmas.dfy` and `launch_lemmas.dfy` hold the properties that relate
  several operations.
- `results.dfy` holds `Option` and `Result`. Go's nil becomes `None` and the
  package's panics become `Err` values.

A Command is modelled as its template value. Stream endpoints are tagged values
whose equality stands for object identity: the kinds Go holds by pointer or
channel carry an id. The host environment snapshot, the exit code the process
reports and the text it writes into a capture buffer are all parameters.

A call with zero modifiers is not the identity. It runs the command
(`gosh/sh.go:42-46`), so the model's `Call` with no modifiers runs, and only
`Bake` with an empty list (or a named bake given no values) returns the
template unchanged. The documentation of `Opts.In` (`gosh/sh_modifiers.go:42`)
promises that a Command given as input is started along with this one and piped
in. The code instead rejects that case as not yet implemented
(`gosh/sh.go:170-172`), and the model follows the code.

## Model

| member | source | states |
|---|---|---|
| Builder.Sh | gosh/sh.go:24-30 | the base template has program `cmd`, no arguments, the given environment snapshot, no cwd or streams, and accepts exactly `[0]` |
| Builder.BakeArgs | gosh/sh.go:91-94 | the old arguments are a prefix, the new ones follow in the given order, the length grows by their count, and nothing else changes |
| Builder.OverlayEnv | gosh/sh.go:100-109 | an overlay key with an empty value is absent afterwards, a non-empty one maps to its overlay value, and keys outside the overlay keep their presence and value |
| Builder.OverlayEnvInPlace | gosh/sh.go:101-107 | the key-by-key delete/set loop yields the declarative overlay whatever order the map is visited in |
| Builder.BakeEnv | gosh/sh.go:96-109 | only the environment changes, and it becomes the overlay of the old one |
| Builder.ClearEnv | gosh/sh.go:111-118 | the environment becomes empty and program, arguments and options are unchanged |
| Builder.OverlayOpts | gosh/sh.go:125-141 | each field the overlay provides (non-empty cwd, non-nil endpoint or code list) is taken from it, and every other field is kept |
| Builder.BakeOpts | gosh/sh.go:120-143 | over a list of overlays each field takes the value of the last overlay that provides it, or keeps its value if none does; program, arguments and environment are untouched |
| Builder.ApplyModifier | gosh/sh.go:57-69 | a single modifier fails exactly when its kind is unrecognised, with `IncomprehensibleCommandModifier` carrying that value; otherwise the program is kept |
| Builder.Bake | gosh/sh.go:54-72 | folding modifiers fails exactly when some modifier is unrecognised, reports the first such one, and never changes the program |
| BuilderLemmas.BakeSplit | gosh/sh.go:57-71 | baking `a ++ b` in one call equals baking `a` and then `b`, and an error in `a` stops there |
| BuilderLemmas.NamedBakesMatchDispatch | gosh/sh.go:87-143 | `BakeArgs`, `BakeEnv`, `ClearEnv` and `BakeOpts` build the same template as the generic call with one modifier of that kind per value |
| BuilderLemmas.BakeArgMods | gosh/sh.go:57-60 | passing strings to a Command appends exactly those strings in order |
| BuilderLemmas.BakeOptsMods | gosh/sh.go:65-66 | passing several `Opts` values to a Command is one `BakeOpts` over the list |
| BuilderLemmas.ArgsAccumulateInOrder | gosh/sh.go:91-94 | `A(x)(y)` has arguments `A.args ++ [x, y]` |
| BuilderLemmas.OverlayEnvCompose | gosh/sh.go:100-109 | two successive environment overlays act as one overlay of their union, the later one winning on shared names |
| BuilderLemmas.EnvLastOverlayWins | gosh/sh_modifiers.go:76 | setting a variable and then baking it empty leaves it unset, and baking it twice with non-empty values keeps only the last value |
| BuilderLemmas.ClearEnvForgetsHistory | gosh/sh.go:115-118 | after a clear marker the environment holds exactly the non-empty entries baked later, whatever was baked before |
| BuilderLemmas.OptsOverlaysAccumulate | gosh/sh.go:124-143 | `Opts{Cwd: dir}` then `Opts{OkExit: codes}` sets both and keeps the streams |
| BuilderLemmas.BakeDefaultIO | gosh/sh_modifiers.go:70-74 | baking `DefaultIO` binds all three streams to the host's streams and leaves cwd and `OkExit` unchanged |
| BuilderLemmas.ProvidedFieldsStayProvided | gosh/sh.go:124-143 | once an options field is provided, no chain of bakes can reset it to empty (for example, a cwd cannot be unset) |
| BuilderLemmas.OkExitKeptUnlessProvided | gosh/sh.go:138-140 | the accepted exit codes change only through an options overlay that provides them |
| BuilderLemmas.SiblingsIndependent | gosh/sh.go:55-56 | intended only: two Commands derived from one ancestor by different strings each contain only their own string; this holds under value semantics, but the Go code's shared slices do not guarantee it |
| Launch.FlattenEnv | gosh/sh.go:155-162 | the environment vector has exactly one `name=value` entry per variable, in the order the map was visited, with no name repeated |
| Launch.StdioPlan | gosh/sh.go:168-186 | a Command as input is refused as not implemented; otherwise each stream is bound to its configured endpoint (stdin and stdout never share another stream's writer), and stderr shares stdout's writer exactly when `Err` is the same object as `Out` |
| Launch.Start | gosh/sh.go:150-192 | the plan has the baked program and arguments, the flattened environment, a working directory only when cwd is non-empty, and the stream plan; it fails only on a piped input |
| Launch.Classify | gosh/sh.go:213-218 | succeeds exactly when the exit code is in the accepted list, and otherwise fails with `FailureExitCode` carrying the program name and that code |
| Launch.Run | gosh/sh.go:208-219 | returns normally exactly when the input is not piped and the code is accepted; a piped input fails as not implemented; otherwise it fails with `FailureExitCode{cmd, code}`; the plan it launches is the one `Start` builds from the template |
| Launch.Output | gosh/sh.go:226-236 | succeeds or fails exactly as `Run` on the original template would, then returns the captured text; the launched plan keeps program, arguments, environment, cwd and stdin, sends stdout to the fresh buffer, and leaves stderr on its configured endpoint without merging it |
| Launch.CombinedOutput | gosh/sh.go:238-245 | succeeds or fails exactly as `Run` on the original template would, then returns the captured text; the launched plan keeps program, arguments, environment, cwd and stdin, sends stdout to the buffer, and has stderr share that same writer |
| Launch.Call | gosh/sh.go:41-73 | a call with no modifiers runs the command and yields no Command, failing with `Run`'s own error (not implemented for piped input, otherwise `FailureExitCode{cmd, code}`); a call with modifiers yields the baked template or the first unrecognised-modifier error |
| LaunchLemmas.DefaultAcceptsOnlyZero | gosh/sh_modifiers.go:63-64 | a command from `Sh` whose bakes never provide `OkExit` accepts code 0 and rejects every other code with `FailureExitCode` |
| LaunchLemmas.ProvidedOkExitReplacesDefault | gosh/sh_modifiers.go:65-67 | a provided `OkExit` replaces the default entirely: exactly the listed codes pass, 0 only if listed, and none for an empty list |
| LaunchLemmas.OutputCapturesOnlyStdout | gosh/sh.go:228-234 | the bake `Output` applies plans stdout into its fresh buffer, leaves stderr on its configured endpoint, and does not merge the two |
| LaunchLemmas.CombinedOutputMergesStreams | gosh/sh.go:241-243 | the bake `CombinedOutput` applies plans stdout into its buffer, and stderr shares that same writer |
| LaunchLemmas.DefaultIOUsesHostStreams | gosh/sh_modifiers.go:70-74 | with `DefaultIO` the three streams go to the host's stdin, stdout and stderr, and stderr is not merged into stdout |
| LaunchLemmas.ExitCodeExamples | gosh/sh.go:208-219 | under the default codes exit 0 passes and exit 2 fails with code 2; under `OkExit: [0, 2]` exit 2 passes |

## Left out

- Process spawning, waiting and exit-code retrieval (`exec.Command`, `NewRunningCommand`, `Wait`, `GetExitCode`) are OS I/O. The exit code is a parameter of `Run`, `Output`, `CombinedOutput` and `Call`. The path lookup `exec.Command` does is not modelled either.
- The stream adapters `iox.ReaderFromInterface` and `iox.WriterFromInterface` are not part of this model. A planned stream records the endpoint handed to the adapter, so the adapter's rejection of unsupported endpoint kinds is not modelled.
- `getOsEnv` is not part of this model. The host environment is a parameter of `Sh`, and it is never nil, so the `env != nil` guard at `gosh/sh.go:155` always holds.
- The `expose`/`exposer`/`enclose` closure plumbing (`gosh/sh.go:32-39`, `gosh/sh.go:75-85`) only reaches the private template. Here a Command is its template value.
- The error types `IncomprehensibleCommandModifier` and `FailureExitCode` are defined outside the modelled files. They appear only as constructors carrying the fields the code fills in.
- Launch.Output: returns the text passed in as what the process wrote into the buffer. Buffer contents and the interleaving of stdout and stderr are runtime I/O.
- Launch.CombinedOutput: returns the text passed in as what the process wrote, for the same reason.
- Endpoint identity: Go compares `Err == Out` as interface values (`gosh/sh.go:181`). That comparison panics when both hold the same uncomparable kind, such as a byte slice. The model compares endpoints as values and does not model that panic.
- Shared memory between derived Commands is not modelled, and the model uses value semantics instead. In the Go code, a bake copies the template struct shallowly (`gosh/sh.go:83`). `bakeEnv` then writes into the environment map the siblings share (`gosh/sh.go:103-105`), and `append` can write into a backing array shared with a sibling (`gosh/sh.go:92`). So the sibling independence that the comment at `gosh/sh.go:55-56` intends is not guaranteed by the code. `SiblingsIndependent` states it only of the model.
