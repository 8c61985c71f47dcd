/**
 The CLI helpers: verbosity resolution over the invocation-context chain, the
 CLI's reportable error and the lines its display produces, and the section
 tag attached to command callbacks. Styling and output streams are abstracted
 to tagged lines.
 */
module Helpers {

  datatype Option<+T> = None | Some(value: T)

  /** The values an option mapping holds: Python's `None` or a flag. */
  datatype Value = NoneValue | BoolValue(b: bool)

  /** Python truthiness of a value. */
  predicate Truthy(v: Value)
  {
    v.BoolValue? && v.b
  }

  /** The `riptide_options` mapping set on a context by the bootstrap. */
  type Options = map<string, Value>

  const VERBOSE: string := "verbose"

  /** Four spaces, used to indent the re-run hint. */
  const TAB: string := "    "

  /** The part of a click context the helpers read. `options` is `None` while
      the context has no `riptide_options` attribute; `parent` is `None` for
      the root context. */
  datatype Context = Context(options: Option<Options>, parent: Option<Context>, resilientParsing: bool)

  /** The lookup of the verbose flag does not fail with a missing key: the
      mapping that is consulted (the context's own, else its parent's) has
      a "verbose" entry. */
  predicate VerbosityResolvable(ctx: Context)
  {
    match ctx.options
    case Some(o) => VERBOSE in o
    case None =>
      ctx.parent.Some? && ctx.parent.value.options.Some? ==> VERBOSE in ctx.parent.value.options.value
  }

  /** Whether verbose mode is enabled: the context's own flag, else its
      parent's, else true. */
  function GetIsVerbose(ctx: Context): Value
    requires VerbosityResolvable(ctx)
  {
    if ctx.options.Some? then ctx.options.value[VERBOSE]
    else if ctx.parent.Some? && ctx.parent.value.options.Some? then ctx.parent.value.options.value[VERBOSE]
    else BoolValue(true)
  }

  /** A context that carries options decides by its own flag, whatever its
      parent is. */
  lemma OwnOptionsDecide(ctx: Context, otherParent: Option<Context>)
    requires ctx.options.Some? && VERBOSE in ctx.options.value
    ensures GetIsVerbose(ctx) == ctx.options.value[VERBOSE]
    ensures GetIsVerbose(ctx.(parent := otherParent)) == GetIsVerbose(ctx)
  {
  }

  /** Without options of its own, a context takes its parent's flag, and the
      grandparent is never consulted. */
  lemma ParentDecidesOneLevel(ctx: Context, otherGrandparent: Option<Context>)
    requires ctx.options.None? && ctx.parent.Some? && ctx.parent.value.options.Some?
    requires VERBOSE in ctx.parent.value.options.value
    ensures GetIsVerbose(ctx) == ctx.parent.value.options.value[VERBOSE]
    ensures GetIsVerbose(ctx.(parent := Some(ctx.parent.value.(parent := otherGrandparent)))) == GetIsVerbose(ctx)
  {
  }

  /** With no options on the context or its parent the answer is verbose,
      even when a grandparent has turned verbosity off. */
  lemma DefaultIsVerbose(ctx: Context)
    requires ctx.options.None?
    requires ctx.parent.None? || ctx.parent.value.options.None?
    ensures GetIsVerbose(ctx) == BoolValue(true)
    ensures ctx.parent.Some? ==>
      forall g: Options :: GetIsVerbose(ctx.(parent := Some(ctx.parent.value.(parent := Some(Context(Some(g), None, false)))))) == BoolValue(true)
  {
  }

  /** The CLI's reportable error: the user-facing message, the context it was
      raised in, and `cause`, the text of the exception being handled when it
      was raised (Python's `__context__`), if any. */
  datatype CliError = CliError(message: string, ctx: Context, cause: Option<string>)

  /** The constructor keeps message and context; no cause is attached until
      the error is raised while another exception is handled. */
  function NewCliError(message: string, ctx: Context): (err: CliError)
    ensures err.message == message && err.ctx == ctx && err.cause.None?
  {
    CliError(message, ctx, None)
  }

  /** `raise err from ex` inside a handler of `ex`: the cause becomes `ex`. */
  function RaiseFrom(err: CliError, ex: string): (raised: CliError)
    ensures raised.message == err.message && raised.ctx == err.ctx
    ensures raised.cause == Some(ex)
  {
    err.(cause := Some(ex))
  }

  /** An output line of the error display, with styling left out. */
  datatype Line =
    | Traceback
    | Message(text: string)
    | CauseLine(text: string)
    | BlankLine
    | VerboseHint

  const CAUSE_PREFIX: string := ">> Error message: "

  /** The stream an explicit `file` argument names. */
  type Stream = string

  /** Whether the display takes the traceback branch: verbose mode, or an
      explicitly given output file. */
  predicate ShowsTraceback(err: CliError, file: Option<Stream>)
    requires VerbosityResolvable(err.ctx)
  {
    Truthy(GetIsVerbose(err.ctx)) || file.Some?
  }

  /** The lines `RiptideCliError.show` writes, in order. */
  function Show(err: CliError, file: Option<Stream>): (lines: seq<Line>)
    requires !err.ctx.resilientParsing ==> VerbosityResolvable(err.ctx)
    ensures err.ctx.resilientParsing ==> lines == []
    ensures !err.ctx.resilientParsing ==> (Traceback in lines <==> ShowsTraceback(err, file))
    ensures Traceback in lines ==> lines == [Traceback]
    ensures !err.ctx.resilientParsing && Traceback !in lines ==>
      && |lines| > 0 && lines[0] == Message(err.message)
      && (VerboseHint in lines <==> err.cause.Some?)
      && (err.cause.Some? ==> CauseLine(CAUSE_PREFIX + err.cause.value) in lines)
      && (err.cause.None? ==> lines == [Message(err.message)])
  {
    if err.ctx.resilientParsing then []
    else if ShowsTraceback(err, file) then [Traceback]
    else
      [Message(err.message)]
      + match err.cause
        case None => []
        case Some(c) => [CauseLine(CAUSE_PREFIX + c), BlankLine, VerboseHint]
  }

  /** An explicit output file forces the traceback even when verbosity is off. */
  lemma ExplicitFileForcesTraceback(err: CliError, file: Stream)
    requires !err.ctx.resilientParsing && VerbosityResolvable(err.ctx)
    ensures Show(err, Some(file)) == [Traceback]
  {
  }

  /** A freshly constructed error, shown quietly, prints exactly the message
      it was given; raised from an exception, it adds the cause and the hint. */
  lemma ShownMessageIsConstructorMessage(message: string, ctx: Context, ex: string)
    requires !ctx.resilientParsing && VerbosityResolvable(ctx)
    requires !Truthy(GetIsVerbose(ctx))
    ensures Show(NewCliError(message, ctx), None) == [Message(message)]
    ensures Show(RaiseFrom(NewCliError(message, ctx), ex), None)
            == [Message(message), CauseLine(CAUSE_PREFIX + ex), BlankLine, VerboseHint]
  {
  }

  /** A command callback as far as the section tag is concerned; `section`
      is the `riptide_section` attribute, `None` while unset. */
  datatype Callable = Callable(name: string, params: seq<string>, doc: string, section: Option<string>)

  /** `cli_section(section)(f)`: the callback with its section set. */
  function CliSection(section: string, f: Callable): (g: Callable)
    ensures g.section == Some(section)
    ensures g.name == f.name && g.params == f.params && g.doc == f.doc
  {
    f.(section := Some(section))
  }

  /** Tagging twice keeps the last label, and re-tagging with the same label
      changes nothing. */
  lemma CliSectionLastWins(s: string, t: string, f: Callable)
    ensures CliSection(s, CliSection(t, f)) == CliSection(s, f)
    ensures CliSection(s, CliSection(s, f)) == CliSection(s, f)
  {
  }

  /** Tagging changes only the section: two callbacks with the same tag are
      equal exactly when they were equal apart from their sections. */
  lemma CliSectionChangesOnlySection(s: string, f: Callable, h: Callable)
    ensures CliSection(s, f) == CliSection(s, h) <==> f.(section := None) == h.(section := None)
  {
  }
}
