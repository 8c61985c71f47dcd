/**
 The bootstrap callback that runs before every subcommand: it fills the
 option mapping, loads the system and project configuration, records the
 project, checks whether project setup has run, loads the engine, warns about
 missing shell integration and registers the command groups.

 Every collaborator (configuration loader, project registry, engine loader,
 setup-flag file, environment) is an input outcome; the callback is a pure
 function from those outcomes to the sequence of observable events, the final
 context state and how the callback ended.
 */
module Main {
  import opened Helpers
  import opened Text

  // ----- Options -----

  const PROJECT: string := "project"
  const UPDATE: string := "update"

  /** The option mapping before the keyword arguments are merged in. */
  const DEFAULT_OPTIONS: Options := map[PROJECT := NoneValue, VERBOSE := BoolValue(false), UPDATE := BoolValue(false)]

  /** `riptide_options` after `update(kwargs)`: keyword arguments override
      the defaults with the same key, the other defaults stay. */
  function MergeOptions(kwargs: Options): (options: Options)
    ensures options.Keys == DEFAULT_OPTIONS.Keys + kwargs.Keys
    ensures forall k :: k in kwargs ==> options[k] == kwargs[k]
    ensures forall k :: k in DEFAULT_OPTIONS && k !in kwargs ==> options[k] == DEFAULT_OPTIONS[k]
  {
    DEFAULT_OPTIONS + kwargs
  }

  /** The global flags of the command line. */
  datatype Flags = Flags(project: Option<string>, verbose: bool, update: bool, rename: bool)

  /** The keyword arguments the callback receives for the given flags:
      `project` and `rename` are bound to the callback's named parameters,
      so only the other two flags arrive as keywords. */
  function CallbackKwargs(flags: Flags): (kwargs: Options)
    ensures kwargs.Keys == {VERBOSE, UPDATE}
    ensures kwargs[VERBOSE] == BoolValue(flags.verbose) && kwargs[UPDATE] == BoolValue(flags.update)
  {
    map[VERBOSE := BoolValue(flags.verbose), UPDATE := BoolValue(flags.update)]
  }

  // ----- Collaborator outcomes -----

  /** A loaded configuration, reduced to whether it has a "project" entry. */
  datatype SystemConfig = SystemConfig(hasProject: bool)

  /** What `load_config` does; error payloads are the exceptions' texts. */
  datatype ConfigOutcome =
    | ConfigLoaded(config: SystemConfig)
    | ConfigFileNotFound
    | ReferencedDocumentNotFound(error: string)
    | ConfigError(error: string)

  /** What `write_project` does: success, or a name already taken at a
      different path. */
  datatype WriteOutcome = ProjectWritten | NameCollision(error: string)

  /** What `load_engine` does. */
  datatype EngineOutcome =
    | EngineLoaded
    | EngineNotImplemented(error: string)
    | EngineConnectionError(error: string)

  /** The outcomes of every collaborator for one run, with the name of the
      command that creates the user configuration. */
  datatype Collaborators = Collaborators(
    config: ConfigOutcome,
    write: WriteOutcome,
    engine: EngineOutcome,
    setupFlagExists: bool,
    createConfigUserCommand: string)

  /** The invocation: the process arguments, the click context's protected
      arguments and resilient-parsing flag, and whether RIPTIDE_SHELL_LOADED
      is in the environment. */
  datatype Invocation = Invocation(
    argv: seq<string>,
    protectedArgs: seq<string>,
    resilientParsing: bool,
    shellMarkerSet: bool)

  // ----- Observable behaviour -----

  datatype Warning = NoConfigFile(command: string) | NoProject | ShellIntegrationDisabled

  const NO_CONFIG_FILE_PREFIX: string := "You don't have a configuration file for Riptide yet. Use "

  /** The text after "Warning: " for each warning; the missing-file warning
      names the command that creates a configuration. */
  function WarningText(w: Warning): (text: string)
    ensures w.NoConfigFile? ==>
      && |text| >= |NO_CONFIG_FILE_PREFIX| + |w.command|
      && text[..|NO_CONFIG_FILE_PREFIX|] == NO_CONFIG_FILE_PREFIX
      && text[|NO_CONFIG_FILE_PREFIX|..|NO_CONFIG_FILE_PREFIX| + |w.command|] == w.command
  {
    match w
    case NoConfigFile(command) =>
      NamingText(NO_CONFIG_FILE_PREFIX, command, " to create one.")
    case NoProject => "No project found. Are you running Riptide inside a Riptide project?"
    case ShellIntegrationDisabled => "Riptide shell integration not enabled."
  }

  /** Python's `prefix %s suffix` formatting with one string argument. */
  function NamingText(prefix: string, name: string, suffix: string): (text: string)
    ensures |text| == |prefix| + |name| + |suffix|
    ensures text[..|prefix|] == prefix && text[|prefix|..|prefix| + |name|] == name
    ensures text[|prefix| + |name|..] == suffix
  {
    prefix + name + suffix
  }

  datatype CommandGroup = BaseGroup | ProjectGroup | DbGroup | ImportGroup

  /** A call into a collaborator or an output the callback makes. */
  datatype Event =
    | ConfigRequested(project: Option<string>, updateRepositories: Value)
    | Warned(warning: Warning)
    | ProjectWriteRequested(rename: bool)
    | EngineRequested
    | GroupLoaded(group: CommandGroup)
    | ShellIntegrationLoaded

  /** The context attributes the callback sets. */
  datatype BootState = BootState(
    options: Options,
    systemConfig: Option<SystemConfig>,
    projectIsSetUp: Option<bool>,
    engineLoaded: bool)

  /** How the callback ended: normally, with a reportable error, or with an
      uncaught lookup of a missing configuration key. */
  datatype End = Completed | Fatal(error: CliError) | Crashed(missingKey: string)

  datatype Outcome = Outcome(trace: seq<Event>, state: BootState, end: End)

  const REFERENCED_DOCUMENT_MESSAGE: string :=
    "Failed to load project because a referenced document could not be found."
  const RERUN_HEADER: string :=
    "\n\nMake sure your repositories are up to date, by re-running this command with --update:\n"
  const UPDATE_FLAG: string := "--update"
  const CONFIG_ERROR_MESSAGE: string := "Error parsing the system or project configuration."
  const UNKNOWN_ENGINE_MESSAGE: string := "Unknown engine specified in configuration."
  const ENGINE_CONNECTION_MESSAGE: string := "Connection to engine failed."

  /** The command line shown in the re-run hint: the arguments with
      "--update" inserted after the program name, joined by single spaces. */
  function RerunCommand(argv: seq<string>): string
  {
    Join(Insert(argv, 1, UPDATE_FLAG), ' ')
  }

  /** The re-run hint appended to the missing-document message. */
  function RerunNote(argv: seq<string>): string
  {
    RERUN_HEADER + TAB + TAB + RerunCommand(argv)
  }

  /** The message for a missing referenced document: the hint is added only
      when the update option is not set. */
  function ReferencedDocumentMessage(update: Value, argv: seq<string>): string
  {
    REFERENCED_DOCUMENT_MESSAGE + (if Truthy(update) then "" else RerunNote(argv))
  }

  /** No subcommand, no shell integration and no shell warning in the trace. */
  predicate Halted(trace: seq<Event>)
  {
    forall e :: e in trace ==> !e.GroupLoaded? && !e.ShellIntegrationLoaded? && e != Warned(ShellIntegrationDisabled)
  }

  // ----- The callback -----

  /** `load_cli(ctx, project, rename, **kwargs)`. */
  function LoadCli(inv: Invocation, project: Option<string>, rename: bool, kwargs: Options, co: Collaborators): (out: Outcome)
    requires PROJECT !in kwargs && "rename" !in kwargs
    ensures out.state.options == MergeOptions(kwargs)
    ensures PROJECT in out.state.options && out.state.options[PROJECT] == NoneValue
    ensures |out.trace| > 0 && out.trace[0] == ConfigRequested(project, out.state.options[UPDATE])
    ensures !out.end.Completed? ==> Halted(out.trace)
    ensures out.end.Fatal? ==> out.end.error.ctx == Context(Some(out.state.options), None, inv.resilientParsing)
    ensures out.end.Fatal? ==> out.end.error.cause.Some?
  {
    var options := MergeOptions(kwargs);
    LoadConfig(inv, Context(Some(options), None, inv.resilientParsing), rename, co,
               BootState(options, None, None, false), [ConfigRequested(project, options[UPDATE])])
  }

  /** The configuration loader's outcome decides the rest of the run. */
  function LoadConfig(inv: Invocation, ctx: Context, rename: bool, co: Collaborators, start: BootState, requested: seq<Event>): (out: Outcome)
    requires start.systemConfig.None? && ctx.options == Some(start.options) && Halted(requested)
    requires UPDATE in start.options
    ensures out.state.options == start.options
    ensures requested <= out.trace
    ensures !out.end.Completed? ==> Halted(out.trace)
    ensures out.end.Fatal? ==> out.end.error.ctx == ctx && out.end.error.cause.Some?
  {
    match co.config
    case ConfigFileNotFound =>
      FinishLoad(inv, start, requested + MissingConfigWarning(inv, co.createConfigUserCommand))
    case ReferencedDocumentNotFound(ex) =>
      ConfigFailure(requested, start, ctx, ReferencedDocumentMessage(start.options[UPDATE], inv.argv), ex)
    case ConfigError(ex) =>
      ConfigFailure(requested, start, ctx, CONFIG_ERROR_MESSAGE, ex)
    case ConfigLoaded(config) =>
      LoadProject(inv, ctx, rename, co, start.(systemConfig := Some(config)), requested)
  }

  /** A loader failure re-raised as a reportable error with the given
      message, the loader's exception as its cause. */
  function ConfigFailure(trace: seq<Event>, state: BootState, ctx: Context, message: string, ex: string): (out: Outcome)
    ensures out.trace == trace && out.state == state
    ensures out.end == Fatal(CliError(message, ctx, Some(ex)))
  {
    Outcome(trace, state, Fatal(RaiseFrom(NewCliError(message, ctx), ex)))
  }

  /** The warning for a missing configuration file, unless the
      create-config command may have been invoked or parsing is resilient. */
  function MissingConfigWarning(inv: Invocation, command: string): (warned: seq<Event>)
    ensures |warned| <= 1
    ensures Warned(NoConfigFile(command)) in warned <==> command !in inv.protectedArgs && !inv.resilientParsing
    ensures forall e :: e in warned ==> e == Warned(NoConfigFile(command))
  {
    if command !in inv.protectedArgs && !inv.resilientParsing then [Warned(NoConfigFile(command))] else []
  }

  /** The branch taken once a configuration was loaded: the no-project
      warning, or recording the project and its setup status, then the
      engine. */
  function LoadProject(inv: Invocation, ctx: Context, rename: bool, co: Collaborators, state: BootState, trace: seq<Event>): (out: Outcome)
    requires state.systemConfig.Some? && Halted(trace)
    ensures trace <= out.trace
    ensures out.state.options == state.options && out.state.systemConfig == state.systemConfig
    ensures !out.end.Completed? ==> Halted(out.trace)
    ensures out.end.Fatal? ==> out.end.error.ctx == ctx && out.end.error.cause.Some?
  {
    var config := state.systemConfig.value;
    if !config.hasProject && !inv.resilientParsing then
      LoadEngine(inv, ctx, co.engine, state, trace + [Warned(NoProject)])
    else if !config.hasProject then
      // The project branch indexes the missing "project" entry.
      Outcome(trace, state, Crashed(PROJECT))
    else
      var written := trace + [ProjectWriteRequested(rename)];
      match co.write
      case NameCollision(ex) =>
        Outcome(written, state, Fatal(RaiseFrom(NewCliError(ex, ctx), ex)))
      case ProjectWritten =>
        LoadEngine(inv, ctx, co.engine, state.(projectIsSetUp := Some(co.setupFlagExists)), written)
  }

  /** Loads the engine after a configuration was loaded. */
  function LoadEngine(inv: Invocation, ctx: Context, engine: EngineOutcome, state: BootState, trace: seq<Event>): (out: Outcome)
    requires state.systemConfig.Some? && Halted(trace)
    ensures trace <= out.trace
    ensures out.state == state.(engineLoaded := out.state.engineLoaded)
    ensures !out.end.Crashed?
    ensures out.end.Fatal? ==> Halted(out.trace) && out.end.error.ctx == ctx && out.end.error.cause.Some?
  {
    var requested := trace + [EngineRequested];
    match engine
    case EngineNotImplemented(ex) =>
      Outcome(requested, state, Fatal(RaiseFrom(NewCliError(UNKNOWN_ENGINE_MESSAGE, ctx), ex)))
    case EngineConnectionError(ex) =>
      Outcome(requested, state, Fatal(RaiseFrom(NewCliError(ENGINE_CONNECTION_MESSAGE, ctx), ex)))
    case EngineLoaded =>
      FinishLoad(inv, state.(engineLoaded := true), requested)
  }

  /** The shell-integration check and the subcommand registration. */
  function FinishLoad(inv: Invocation, state: BootState, trace: seq<Event>): (out: Outcome)
    ensures out.end.Completed? && out.state == state
    ensures trace <= out.trace
  {
    Outcome(trace + ShellCheck(inv) + Registrations(state), state, Completed)
  }

  /** The shell-integration warning, when the environment marker is absent
      outside resilient parsing. */
  function ShellCheck(inv: Invocation): (warned: seq<Event>)
    ensures forall e :: e in warned ==> e == Warned(ShellIntegrationDisabled)
    ensures Warned(ShellIntegrationDisabled) in warned <==> !inv.shellMarkerSet && !inv.resilientParsing
  {
    if !inv.shellMarkerSet && !inv.resilientParsing then [Warned(ShellIntegrationDisabled)] else []
  }

  /** The base group always, then the groups a loaded configuration adds. */
  function Registrations(state: BootState): (registered: seq<Event>)
    ensures forall e :: e in registered ==> e.GroupLoaded? || e.ShellIntegrationLoaded?
    ensures |registered| > 0 && registered[0] == GroupLoaded(BaseGroup)
    ensures state.systemConfig.Some? ==>
      |registered| >= 4 && registered[1..4] == [GroupLoaded(ProjectGroup), GroupLoaded(DbGroup), GroupLoaded(ImportGroup)]
    ensures GroupLoaded(BaseGroup) in registered
    ensures GroupLoaded(ProjectGroup) in registered <==> state.systemConfig.Some?
    ensures ShellIntegrationLoaded in registered <==> state.systemConfig.Some? && state.systemConfig.value.hasProject
  {
    [GroupLoaded(BaseGroup)] + ScopedRegistrations(state.systemConfig)
  }

  /** With a configuration: the project, database and import groups, and
      with a project also the shell integration. */
  function ScopedRegistrations(config: Option<SystemConfig>): (registered: seq<Event>)
    ensures forall e :: e in registered ==> e.GroupLoaded? || e.ShellIntegrationLoaded?
    ensures config.None? ==> registered == []
    ensures config.Some? ==>
      |registered| >= 3 && registered[..3] == [GroupLoaded(ProjectGroup), GroupLoaded(DbGroup), GroupLoaded(ImportGroup)]
    ensures GroupLoaded(ProjectGroup) in registered <==> config.Some?
    ensures ShellIntegrationLoaded in registered <==> config.Some? && config.value.hasProject
  {
    match config
    case None => []
    case Some(c) => SCOPED_GROUPS + (if c.hasProject then [ShellIntegrationLoaded] else [])
  }

  const SCOPED_GROUPS: seq<Event> := [GroupLoaded(ProjectGroup), GroupLoaded(DbGroup), GroupLoaded(ImportGroup)]

  /** The callback as the command-line group runs it for the given flags. */
  function Bootstrap(inv: Invocation, flags: Flags, co: Collaborators): (out: Outcome)
    ensures out.state.options == map[PROJECT := NoneValue, VERBOSE := BoolValue(flags.verbose), UPDATE := BoolValue(flags.update)]
  {
    LoadCli(inv, flags.project, flags.rename, CallbackKwargs(flags), co)
  }
}
