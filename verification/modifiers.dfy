/** The data model of the command builder: the command template, the options
    record embedded in it, environment overlays and the I/O endpoints that the
    options can bind (gosh/sh_modifiers.go). */
module Modifiers {
  import opened Results

  /** A mapping from variable name to value; as a map, each name occurs once. */
  type Env = map<string, string>

  /** A value bound to a command's stdin, stdout or stderr. Two endpoints are the
      same object exactly when they are equal values: kinds that Go holds by
      pointer or channel carry an identity, literal text is compared by value. */
  datatype Endpoint =
    | Text(text: string)                // literal string input
    | Bytes(bytes: seq<bv8>)            // literal byte slice input
    | Stream(id: nat)                   // an io.Reader or io.Writer
    | Buffer(id: nat)                   // a *bytes.Buffer
    | LineChannel(id: nat)              // a channel of text lines
    | ChunkChannel(id: nat)             // a channel of byte chunks
    | HostStdin | HostStdout | HostStderr
    | Piped(upstream: Template)         // another Command, whose output would feed this one

  /** Execution options. An empty `cwd` and a `None` field mean "not provided". */
  datatype Opts = Opts(
    cwd: string,
    input: Option<Endpoint>,
    out: Option<Endpoint>,
    err: Option<Endpoint>,
    okExit: Option<seq<int>>)

  /** Go's zero value `Opts{}`: provides nothing. */
  const NoOpts: Opts := Opts("", None, None, None, None)

  /** Options that bind all three streams to the host process's own streams. */
  const DefaultIO: Opts := Opts("", Some(HostStdin), Some(HostStdout), Some(HostStderr), None)

  /** A command template: program, arguments, environment and embedded options. */
  datatype Template = Template(cmd: string, args: seq<string>, env: Env, opts: Opts)

  /** The kinds of value a Command can be called with. `Unrecognized` stands for
      every other Go value (a plain map that is not an `Env`, a slice, a pointer
      to `Opts`, ...), described by a string for diagnostics. */
  datatype Modifier =
    | Arg(arg: string)
    | EnvOverlay(vars: Env)
    | ClearEnvMarker
    | OptsOverlay(options: Opts)
    | Unrecognized(value: string)

  /** The panics the package raises, as values. */
  datatype ShError =
    | IncomprehensibleCommandModifier(wat: string)
    | NotYetImplemented
    | FailureExitCode(cmdname: string, code: int)

  /** The five overridable option fields. */
  datatype Field = CwdField | InField | OutField | ErrField | OkExitField

  /** The content of one option field, whatever its type. */
  datatype FieldValue =
    | CwdValue(cwd: string)
    | EndpointValue(endpoint: Option<Endpoint>)
    | CodesValue(codes: Option<seq<int>>)

  function Get(o: Opts, f: Field): FieldValue {
    match f
    case CwdField => CwdValue(o.cwd)
    case InField => EndpointValue(o.input)
    case OutField => EndpointValue(o.out)
    case ErrField => EndpointValue(o.err)
    case OkExitField => CodesValue(o.okExit)
  }

  /** Whether an options value provides field `f`: a non-empty `cwd` or a
      non-nil endpoint or exit-code list. */
  predicate Provides(o: Opts, f: Field) {
    match f
    case CwdField => o.cwd != ""
    case InField => o.input.Some?
    case OutField => o.out.Some?
    case ErrField => o.err.Some?
    case OkExitField => o.okExit.Some?
  }

  /** The exit codes counted as success; ranging over a nil list visits nothing. */
  function AcceptedCodes(o: Opts): seq<int> {
    o.okExit.GetOr([])
  }

  /** Whether the input is bound to another Command. */
  predicate PipedInput(o: Opts) {
    o.input.Some? && o.input.value.Piped?
  }
}
