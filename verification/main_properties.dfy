/**
 Properties of the bootstrap callback: how each collaborator outcome ends
 the run, which warnings appear and in which order, what is registered, and
 what the re-run hint contains.
 */
module MainProperties {
  import opened Helpers
  import opened Text
  import opened Main

  // ----- Views of the trace -----

  /** The warnings of a trace, in order. */
  function Warnings(trace: seq<Event>): seq<Warning>
  {
    if |trace| == 0 then []
    else (if trace[0].Warned? then [trace[0].warning] else []) + Warnings(trace[1..])
  }

  /** The command groups a trace registers, in order. */
  function LoadedGroups(trace: seq<Event>): seq<CommandGroup>
  {
    if |trace| == 0 then []
    else (if trace[0].GroupLoaded? then [trace[0].group] else []) + LoadedGroups(trace[1..])
  }

  lemma {:induction false} WarningsAppend(a: seq<Event>, b: seq<Event>)
    ensures Warnings(a + b) == Warnings(a) + Warnings(b)
  {
    if |a| > 0 {
      assert (a + b)[1..] == a[1..] + b;
      WarningsAppend(a[1..], b);
    } else {
      assert a + b == b;
    }
  }

  lemma {:induction false} LoadedGroupsAppend(a: seq<Event>, b: seq<Event>)
    ensures LoadedGroups(a + b) == LoadedGroups(a) + LoadedGroups(b)
  {
    if |a| > 0 {
      assert (a + b)[1..] == a[1..] + b;
      LoadedGroupsAppend(a[1..], b);
    } else {
      assert a + b == b;
    }
  }

  /** The stage a warning belongs to: configuration first, shell second. */
  function Stage(w: Warning): nat
  {
    if w.ShellIntegrationDisabled? then 2 else 1
  }

  predicate StagesIncrease(ws: seq<Warning>)
  {
    forall i, j :: 0 <= i < j < |ws| ==> Stage(ws[i]) < Stage(ws[j])
  }

  // ----- Which way the run ends -----

  /** The inputs for which the engine loader is called. */
  predicate ReachesEngine(inv: Invocation, co: Collaborators)
  {
    && co.config.ConfigLoaded?
    && (if co.config.config.hasProject then co.write.ProjectWritten? else !inv.resilientParsing)
  }

  /** The inputs for which the callback raises a reportable error. */
  predicate FailsFatally(inv: Invocation, co: Collaborators)
  {
    || co.config.ReferencedDocumentNotFound?
    || co.config.ConfigError?
    || (co.config.ConfigLoaded? && co.config.config.hasProject && co.write.NameCollision?)
    || (ReachesEngine(inv, co) && !co.engine.EngineLoaded?)
  }

  /** The configuration lacks a project during resilient parsing. */
  predicate HitsMissingProjectKey(inv: Invocation, co: Collaborators)
  {
    co.config.ConfigLoaded? && !co.config.config.hasProject && inv.resilientParsing
  }

  /** The three endings, each characterised by the collaborator outcomes. */
  lemma EndingCharacterised(inv: Invocation, project: Option<string>, rename: bool, kwargs: Options, co: Collaborators)
    requires PROJECT !in kwargs && "rename" !in kwargs
    ensures var out := LoadCli(inv, project, rename, kwargs, co);
      && (out.end.Fatal? <==> FailsFatally(inv, co))
      && (out.end.Crashed? <==> HitsMissingProjectKey(inv, co))
      && (out.end.Crashed? ==> out.end.missingKey == PROJECT && ProjectWriteRequested(rename) !in out.trace)
      && (out.end.Completed? <==> !FailsFatally(inv, co) && !HitsMissingProjectKey(inv, co))
  {
  }

  /** Warnings never decide the ending: the inputs that only gate warnings
      (protected arguments, the shell marker) leave the ending unchanged. */
  lemma WarningsNeverHalt(inv: Invocation, project: Option<string>, rename: bool, kwargs: Options, co: Collaborators,
                          protectedArgs: seq<string>, shellMarkerSet: bool)
    requires PROJECT !in kwargs && "rename" !in kwargs
    ensures var other := inv.(protectedArgs := protectedArgs, shellMarkerSet := shellMarkerSet);
      LoadCli(other, project, rename, kwargs, co).end == LoadCli(inv, project, rename, kwargs, co).end
  {
  }

  // ----- Configuration loading -----

  /** A missing configuration file is not fatal and leaves no configuration;
      its warning appears exactly when the create-config command is not among
      the protected arguments and parsing is not resilient. */
  lemma MissingConfigFileWarns(inv: Invocation, project: Option<string>, rename: bool, kwargs: Options, co: Collaborators)
    requires PROJECT !in kwargs && "rename" !in kwargs
    requires co.config.ConfigFileNotFound?
    ensures var out := LoadCli(inv, project, rename, kwargs, co);
      && out.end.Completed?
      && out.state.systemConfig.None? && out.state.projectIsSetUp.None? && !out.state.engineLoaded
      && EngineRequested !in out.trace
      && (Warned(NoConfigFile(co.createConfigUserCommand)) in out.trace
          <==> co.createConfigUserCommand !in inv.protectedArgs && !inv.resilientParsing)
  {
  }

  /** A missing referenced document is fatal with the fixed message, plus the
      re-run hint exactly when the update option is off. */
  lemma MissingReferencedDocumentIsFatal(inv: Invocation, project: Option<string>, rename: bool, kwargs: Options, co: Collaborators)
    requires PROJECT !in kwargs && "rename" !in kwargs
    requires co.config.ReferencedDocumentNotFound?
    ensures var out := LoadCli(inv, project, rename, kwargs, co);
      && out.end.Fatal?
      && out.end.error.cause == Some(co.config.error)
      && out.trace == [ConfigRequested(project, out.state.options[UPDATE])]
      && (if Truthy(out.state.options[UPDATE])
          then out.end.error.message == REFERENCED_DOCUMENT_MESSAGE
          else out.end.error.message == REFERENCED_DOCUMENT_MESSAGE + RerunNote(inv.argv))
  {
  }

  /** Any other loader failure is fatal with the fixed parse-error message. */
  lemma OtherConfigErrorIsFatal(inv: Invocation, project: Option<string>, rename: bool, kwargs: Options, co: Collaborators)
    requires PROJECT !in kwargs && "rename" !in kwargs
    requires co.config.ConfigError?
    ensures var out := LoadCli(inv, project, rename, kwargs, co);
      && out.end.Fatal?
      && out.end.error.message == CONFIG_ERROR_MESSAGE
      && out.end.error.cause == Some(co.config.error)
      && |out.trace| == 1
  {
  }

  // ----- The re-run hint -----

  /** The hint is the header, two tabs and a command line that splits on
      spaces back into the arguments with "--update" at position 1, provided
      no argument contains a space. */
  lemma {:induction false} RerunNoteRecoversArguments(argv: seq<string>)
    requires forall i :: 0 <= i < |argv| ==> ' ' !in argv[i]
    ensures var prefix := RERUN_HEADER + TAB + TAB;
      && RerunNote(argv)[..|prefix|] == prefix
      && Split(RerunNote(argv)[|prefix|..], ' ') == Insert(argv, 1, UPDATE_FLAG)
  {
    var prefix := RERUN_HEADER + TAB + TAB;
    var args := Insert(argv, 1, UPDATE_FLAG);
    forall i | 0 <= i < |args|
      ensures ' ' !in args[i]
    {
      assert args[i] in multiset(args);
    }
    SplitJoin(args, ' ');
    assert RerunNote(argv) == prefix + Join(args, ' ');
  }

  /** With a program name, the re-run command starts with that name followed
      by " --update". */
  lemma {:induction false} RerunCommandStartsWithUpdate(argv: seq<string>)
    requires |argv| > 0
    ensures var head := argv[0] + " " + UPDATE_FLAG;
      |head| <= |RerunCommand(argv)| && RerunCommand(argv)[..|head|] == head
  {
    var args := Insert(argv, 1, UPDATE_FLAG);
    assert args[0] == argv[0] && args[1] == UPDATE_FLAG;
    if |args| == 2 {
      assert Join(args, ' ') == argv[0] + [' '] + Join(args[1..], ' ');
    } else {
      assert Join(args[1..], ' ') == UPDATE_FLAG + [' '] + Join(args[2..], ' ');
    }
  }

  /** Arguments containing spaces are not recoverable from the hint: an
      argument "a b" and the two arguments "a", "b" give the same hint. */
  lemma RerunNoteIsAmbiguousWithSpaces(program: string, a: string, b: string)
    ensures [program, a + [' '] + b] != [program, a, b]
    ensures RerunNote([program, a + [' '] + b]) == RerunNote([program, a, b])
  {
    var line := program + [' '] + (UPDATE_FLAG + [' '] + (a + [' '] + b));
    RerunCommandWithSpacedArgument(program, a + [' '] + b);
    RerunCommandWithSeparateArguments(program, a, b);
    assert RerunCommand([program, a + [' '] + b]) == line == RerunCommand([program, a, b]);
    assert |[program, a + [' '] + b]| == 2 && |[program, a, b]| == 3;
  }

  lemma RerunCommandWithSpacedArgument(program: string, arg: string)
    ensures RerunCommand([program, arg]) == program + [' '] + (UPDATE_FLAG + [' '] + arg)
  {
    assert Insert([program, arg], 1, UPDATE_FLAG) == [program, UPDATE_FLAG] + [arg] by {
      InsertAfterHead(program, [arg], UPDATE_FLAG);
      assert [program] + [arg] == [program, arg];
    }
    JoinAfterUpdate(program, [arg]);
  }

  lemma RerunCommandWithSeparateArguments(program: string, a: string, b: string)
    ensures RerunCommand([program, a, b]) == program + [' '] + (UPDATE_FLAG + [' '] + (a + [' '] + b))
  {
    assert Insert([program, a, b], 1, UPDATE_FLAG) == [program, UPDATE_FLAG] + [a, b] by {
      InsertAfterHead(program, [a, b], UPDATE_FLAG);
      assert [program] + [a, b] == [program, a, b];
    }
    assert Join([a, b], ' ') == a + [' '] + b by {
      JoinCons(a, [b], ' ');
      assert [a] + [b] == [a, b];
    }
    JoinAfterUpdate(program, [a, b]);
  }

  lemma JoinAfterUpdate(program: string, rest: seq<string>)
    requires |rest| > 0
    ensures Join([program, UPDATE_FLAG] + rest, ' ') == program + [' '] + (UPDATE_FLAG + [' '] + Join(rest, ' '))
  {
    JoinTwoHeads(program, UPDATE_FLAG, rest, ' ');
  }

  // ----- Project and engine -----

  /** With a project, a name collision is fatal with the registry's message
      unchanged; otherwise the setup status is the existence of the flag
      file. Without a project (and not resilient) nothing is written. */
  lemma ProjectRegistration(inv: Invocation, project: Option<string>, rename: bool, kwargs: Options, co: Collaborators)
    requires PROJECT !in kwargs && "rename" !in kwargs
    requires co.config.ConfigLoaded?
    ensures var out := LoadCli(inv, project, rename, kwargs, co);
      && out.state.systemConfig == Some(co.config.config)
      && (co.config.config.hasProject ==> ProjectWriteRequested(rename) in out.trace)
      && (co.config.config.hasProject && co.write.NameCollision? ==>
            out.end.Fatal? && out.end.error.message == co.write.error
            && out.end.error.cause == Some(co.write.error) && EngineRequested !in out.trace)
      && (co.config.config.hasProject && co.write.ProjectWritten? ==>
            out.state.projectIsSetUp == Some(co.setupFlagExists))
      && (!co.config.config.hasProject ==>
            out.state.projectIsSetUp.None? && ProjectWriteRequested(rename) !in out.trace)
  {
    var options := MergeOptions(kwargs);
    ProjectStep(inv, Context(Some(options), None, inv.resilientParsing), rename, co,
                BootState(options, Some(co.config.config), None, false), [ConfigRequested(project, options[UPDATE])]);
  }

  /** A name collision shown quietly repeats the registry's text: once as
      the message and once as the cause line. */
  lemma CollisionShowsRegistryTextTwice(inv: Invocation, flags: Flags, co: Collaborators)
    requires co.config.ConfigLoaded? && co.config.config.hasProject && co.write.NameCollision?
    requires !inv.resilientParsing && !flags.verbose
    ensures var out := Bootstrap(inv, flags, co);
      && out.end.Fatal?
      && Show(out.end.error, None)
         == [Message(co.write.error), CauseLine(CAUSE_PREFIX + co.write.error), BlankLine, VerboseHint]
  {
    ProjectRegistration(inv, flags.project, flags.rename, CallbackKwargs(flags), co);
    BootstrapErrorDisplay(inv, flags, co);
  }

  /** The project step on a trace that has neither written a project nor
      requested the engine. */
  lemma ProjectStep(inv: Invocation, ctx: Context, rename: bool, co: Collaborators, state: BootState, trace: seq<Event>)
    requires state.systemConfig.Some? && Halted(trace) && state.projectIsSetUp.None?
    requires ProjectWriteRequested(rename) !in trace && EngineRequested !in trace
    ensures var out := LoadProject(inv, ctx, rename, co, state, trace);
      var config := state.systemConfig.value;
      && (config.hasProject ==> ProjectWriteRequested(rename) in out.trace)
      && (config.hasProject && co.write.NameCollision? ==>
            out.end.Fatal? && out.end.error.message == co.write.error
            && out.end.error.cause == Some(co.write.error) && EngineRequested !in out.trace)
      && (config.hasProject && co.write.ProjectWritten? ==>
            out.state.projectIsSetUp == Some(co.setupFlagExists))
      && (!config.hasProject ==>
            out.state.projectIsSetUp.None? && ProjectWriteRequested(rename) !in out.trace)
  {
    if state.systemConfig.value.hasProject {
      WrittenProjectStep(inv, ctx, rename, co, state, trace);
    } else {
      UnwrittenProjectStep(inv, ctx, rename, co, state, trace);
    }
  }

  lemma WrittenProjectStep(inv: Invocation, ctx: Context, rename: bool, co: Collaborators, state: BootState, trace: seq<Event>)
    requires state.systemConfig.Some? && state.systemConfig.value.hasProject && Halted(trace)
    requires EngineRequested !in trace
    ensures var out := LoadProject(inv, ctx, rename, co, state, trace);
      && ProjectWriteRequested(rename) in out.trace
      && (co.write.NameCollision? ==>
            out.end.Fatal? && out.end.error.message == co.write.error
            && out.end.error.cause == Some(co.write.error) && EngineRequested !in out.trace)
      && (co.write.ProjectWritten? ==> out.state.projectIsSetUp == Some(co.setupFlagExists))
  {
    var written := trace + [ProjectWriteRequested(rename)];
    assert ProjectWriteRequested(rename) in written;
    if co.write.ProjectWritten? {
      var out := LoadEngine(inv, ctx, co.engine, state.(projectIsSetUp := Some(co.setupFlagExists)), written);
      PrefixKeeps(written, out.trace, ProjectWriteRequested(rename));
    } else {
      assert EngineRequested !in written;
    }
  }

  lemma UnwrittenProjectStep(inv: Invocation, ctx: Context, rename: bool, co: Collaborators, state: BootState, trace: seq<Event>)
    requires state.systemConfig.Some? && !state.systemConfig.value.hasProject && Halted(trace)
    requires state.projectIsSetUp.None? && ProjectWriteRequested(rename) !in trace
    ensures var out := LoadProject(inv, ctx, rename, co, state, trace);
      out.state.projectIsSetUp.None? && ProjectWriteRequested(rename) !in out.trace
  {
    if !inv.resilientParsing {
      var out := LoadEngine(inv, ctx, co.engine, state, trace + [Warned(NoProject)]);
      var engineTrace := trace + [Warned(NoProject)] + [EngineRequested];
      assert ProjectWriteRequested(rename) !in engineTrace;
      if out.end.Completed? {
        FinishAddsNoWrite(inv, out.state, engineTrace, rename);
      }
    }
  }

  /** An event of a trace stays in every extension of it. */
  lemma PrefixKeeps(trace: seq<Event>, extended: seq<Event>, e: Event)
    requires trace <= extended && e in trace
    ensures e in extended
  {
    var i :| 0 <= i < |trace| && trace[i] == e;
    assert extended[i] == e;
  }

  /** The shell check and the registrations never write a project. */
  lemma FinishAddsNoWrite(inv: Invocation, state: BootState, trace: seq<Event>, rename: bool)
    requires ProjectWriteRequested(rename) !in trace
    ensures ProjectWriteRequested(rename) !in FinishLoad(inv, state, trace).trace
  {
  }

  /** The engine loader is called exactly on the inputs that reach it, with
      or without a project; its two failures have distinct fixed messages. */
  lemma EngineLoading(inv: Invocation, project: Option<string>, rename: bool, kwargs: Options, co: Collaborators)
    requires PROJECT !in kwargs && "rename" !in kwargs
    ensures var out := LoadCli(inv, project, rename, kwargs, co);
      && (EngineRequested in out.trace <==> ReachesEngine(inv, co))
      && (out.state.engineLoaded <==> ReachesEngine(inv, co) && co.engine.EngineLoaded?)
      && (ReachesEngine(inv, co) && co.engine.EngineNotImplemented? ==>
            out.end == Fatal(CliError(UNKNOWN_ENGINE_MESSAGE, Context(Some(out.state.options), None, inv.resilientParsing), Some(co.engine.error))))
      && (ReachesEngine(inv, co) && co.engine.EngineConnectionError? ==>
            out.end == Fatal(CliError(ENGINE_CONNECTION_MESSAGE, Context(Some(out.state.options), None, inv.resilientParsing), Some(co.engine.error))))
  {
    var options := MergeOptions(kwargs);
    var ctx := Context(Some(options), None, inv.resilientParsing);
    var start := BootState(options, None, None, false);
    var requested := [ConfigRequested(project, options[UPDATE])];
    match co.config
    case ConfigFileNotFound =>
      FinishAddsNoEngine(inv, start, requested + MissingConfigWarning(inv, co.createConfigUserCommand));
    case ConfigLoaded(config) =>
      ProjectStepEngine(inv, ctx, rename, co, start.(systemConfig := Some(config)), requested);
    case _ =>
  }

  /** The shell check and the registrations never request the engine. */
  lemma FinishAddsNoEngine(inv: Invocation, state: BootState, trace: seq<Event>)
    requires EngineRequested !in trace
    ensures EngineRequested !in FinishLoad(inv, state, trace).trace
  {
  }

  /** The project step requests the engine exactly when it does not stop
      first: with a project, once the project is written; without one,
      outside resilient parsing. */
  lemma ProjectStepEngine(inv: Invocation, ctx: Context, rename: bool, co: Collaborators, state: BootState, trace: seq<Event>)
    requires state.systemConfig.Some? && Halted(trace) && EngineRequested !in trace && !state.engineLoaded
    ensures var out := LoadProject(inv, ctx, rename, co, state, trace);
      var reaches := if state.systemConfig.value.hasProject then co.write.ProjectWritten? else !inv.resilientParsing;
      && (EngineRequested in out.trace <==> reaches)
      && (out.state.engineLoaded <==> reaches && co.engine.EngineLoaded?)
      && (reaches && co.engine.EngineNotImplemented? ==>
            out.end == Fatal(CliError(UNKNOWN_ENGINE_MESSAGE, ctx, Some(co.engine.error))))
      && (reaches && co.engine.EngineConnectionError? ==>
            out.end == Fatal(CliError(ENGINE_CONNECTION_MESSAGE, ctx, Some(co.engine.error))))
  {
    var config := state.systemConfig.value;
    if !config.hasProject && !inv.resilientParsing {
      EngineStep(inv, ctx, co.engine, state, trace + [Warned(NoProject)]);
    } else if config.hasProject && co.write.ProjectWritten? {
      EngineStep(inv, ctx, co.engine, state.(projectIsSetUp := Some(co.setupFlagExists)), trace + [ProjectWriteRequested(rename)]);
    } else if config.hasProject {
      assert EngineRequested !in trace + [ProjectWriteRequested(rename)];
    }
  }

  /** The engine step requests the engine, records whether it loaded, and
      turns each failure into its fixed message. */
  lemma EngineStep(inv: Invocation, ctx: Context, engine: EngineOutcome, state: BootState, trace: seq<Event>)
    requires state.systemConfig.Some? && Halted(trace) && !state.engineLoaded
    ensures var out := LoadEngine(inv, ctx, engine, state, trace);
      && EngineRequested in out.trace
      && (out.state.engineLoaded <==> engine.EngineLoaded?)
      && (engine.EngineNotImplemented? ==> out.end == Fatal(CliError(UNKNOWN_ENGINE_MESSAGE, ctx, Some(engine.error))))
      && (engine.EngineConnectionError? ==> out.end == Fatal(CliError(ENGINE_CONNECTION_MESSAGE, ctx, Some(engine.error))))
  {
    var requested := trace + [EngineRequested];
    assert EngineRequested in requested;
    if engine.EngineLoaded? {
      PrefixKeeps(requested, FinishLoad(inv, state.(engineLoaded := true), requested).trace, EngineRequested);
    }
  }

  /** The two engine failures are told apart by their messages. */
  lemma EngineMessagesDistinct()
    ensures UNKNOWN_ENGINE_MESSAGE != ENGINE_CONNECTION_MESSAGE
  {
  }

  // ----- Warnings and registration -----

  /** A warning's text tells which warning it is, and for the missing-file
      warning which command it names. */
  lemma WarningTextIdentifies(w1: Warning, w2: Warning)
    ensures WarningText(w1) == WarningText(w2) <==> w1 == w2
  {
    WarningTextLength(w1);
    WarningTextLength(w2);
    if w1.NoConfigFile? && w2.NoConfigFile? && WarningText(w1) == WarningText(w2) {
      var n := |NO_CONFIG_FILE_PREFIX|;
      assert w1.command == WarningText(w1)[n..n + |w1.command|] == w2.command;
    }
  }

  /** The length of each warning's text; the three lengths never coincide. */
  lemma WarningTextLength(w: Warning)
    ensures w.NoConfigFile? ==> |WarningText(w)| == 72 + |w.command|
    ensures w.NoProject? ==> |WarningText(w)| == 67
    ensures w.ShellIntegrationDisabled? ==> |WarningText(w)| == 38
  {
    assert |NO_CONFIG_FILE_PREFIX| == 57;
  }

  /** The warning of the configuration stage: a missing file (unless the
      create-config command may have been invoked or parsing is resilient)
      or a missing project (unless parsing is resilient). */
  function ConfigStageWarnings(inv: Invocation, co: Collaborators): seq<Warning>
  {
    if co.config.ConfigFileNotFound? && co.createConfigUserCommand !in inv.protectedArgs && !inv.resilientParsing
    then [NoConfigFile(co.createConfigUserCommand)]
    else if co.config.ConfigLoaded? && !co.config.config.hasProject && !inv.resilientParsing then [NoProject]
    else []
  }

  /** The shell warning: on a completed run without the environment marker,
      unless parsing is resilient. */
  function ShellStageWarnings(inv: Invocation, completed: bool): seq<Warning>
  {
    if completed && !inv.shellMarkerSet && !inv.resilientParsing then [ShellIntegrationDisabled] else []
  }

  /** The warnings of any run: the configuration-stage warning first, then
      the shell warning, each at most once and each exactly under its
      condition. */
  lemma {:induction false} WarningsInOrder(inv: Invocation, project: Option<string>, rename: bool, kwargs: Options, co: Collaborators)
    requires PROJECT !in kwargs && "rename" !in kwargs
    ensures var out := LoadCli(inv, project, rename, kwargs, co);
      && Warnings(out.trace) == ConfigStageWarnings(inv, co) + ShellStageWarnings(inv, out.end.Completed?)
      && StagesIncrease(Warnings(out.trace))
  {
    var out := LoadCli(inv, project, rename, kwargs, co);
    var options := MergeOptions(kwargs);
    var requested := [ConfigRequested(project, options[UPDATE])];
    SingleWarnings(requested[0]);
    ConfigWarnings(inv, Context(Some(options), None, inv.resilientParsing), rename, co,
                   BootState(options, None, None, false), requested);
    OneStageEach(ConfigStageWarnings(inv, co), ShellStageWarnings(inv, out.end.Completed?));
  }

  /** A configuration-stage warning followed by a shell-stage warning, each
      at most one, are in stage order. */
  lemma OneStageEach(config: seq<Warning>, shell: seq<Warning>)
    requires |config| <= 1 && |shell| <= 1
    requires forall i :: 0 <= i < |config| ==> Stage(config[i]) == 1
    requires forall i :: 0 <= i < |shell| ==> Stage(shell[i]) == 2
    ensures StagesIncrease(config + shell)
  {
    var ws := config + shell;
    forall i, j | 0 <= i < j < |ws|
      ensures Stage(ws[i]) < Stage(ws[j])
    {
      assert i == 0 && j == 1 && |config| == 1;
    }
  }

  /** The warnings from the configuration loader on. */
  lemma ConfigWarnings(inv: Invocation, ctx: Context, rename: bool, co: Collaborators, start: BootState, requested: seq<Event>)
    requires start.systemConfig.None? && ctx.options == Some(start.options) && Halted(requested)
    requires UPDATE in start.options && Warnings(requested) == []
    ensures var out := LoadConfig(inv, ctx, rename, co, start, requested);
      Warnings(out.trace) == ConfigStageWarnings(inv, co) + ShellStageWarnings(inv, out.end.Completed?)
  {
    match co.config
    case ConfigFileNotFound =>
      MissingConfigWarnings(inv, start, requested, co.createConfigUserCommand);
    case ConfigLoaded(config) =>
      LoadProjectWarnings(inv, ctx, rename, co, start.(systemConfig := Some(config)), requested);
    case _ =>
  }

  lemma SingleWarnings(e: Event)
    ensures Warnings([e]) == if e.Warned? then [e.warning] else []
  {
    assert [e][1..] == [];
  }

  lemma {:induction false} NoWarnings(trace: seq<Event>)
    requires forall e :: e in trace ==> !e.Warned?
    ensures Warnings(trace) == []
  {
    if |trace| > 0 {
      assert trace[0] in trace;
      NoWarnings(trace[1..]);
    }
  }

  /** Without a configuration file: the missing-file warning under its
      condition, then the shell warning. */
  lemma MissingConfigWarnings(inv: Invocation, start: BootState, requested: seq<Event>, command: string)
    requires Warnings(requested) == []
    ensures var out := FinishLoad(inv, start, requested + MissingConfigWarning(inv, command));
      Warnings(out.trace)
      == (if command !in inv.protectedArgs && !inv.resilientParsing then [NoConfigFile(command)] else [])
         + ShellStageWarnings(inv, true)
  {
    var warned := MissingConfigWarning(inv, command);
    FinishWarnings(inv, start, requested + warned);
    WarningsAppend(requested, warned);
    if |warned| > 0 {
      assert warned == [warned[0]];
      SingleWarnings(warned[0]);
    } else {
      assert warned == [];
    }
  }

  /** The branch after a loaded configuration adds the no-project warning
      under its condition, then the shell warning if it completes. */
  lemma LoadProjectWarnings(inv: Invocation, ctx: Context, rename: bool, co: Collaborators, state: BootState, trace: seq<Event>)
    requires state.systemConfig.Some? && Halted(trace)
    ensures var out := LoadProject(inv, ctx, rename, co, state, trace);
      Warnings(out.trace)
      == Warnings(trace)
         + (if !state.systemConfig.value.hasProject && !inv.resilientParsing then [NoProject] else [])
         + ShellStageWarnings(inv, out.end.Completed?)
  {
    var config := state.systemConfig.value;
    if !config.hasProject && !inv.resilientParsing {
      WarningsAppend(trace, [Warned(NoProject)]);
      SingleWarnings(Warned(NoProject));
      EngineStepWarnings(inv, ctx, co.engine, state, trace + [Warned(NoProject)]);
    } else if config.hasProject {
      var written := trace + [ProjectWriteRequested(rename)];
      WarningsAppend(trace, [ProjectWriteRequested(rename)]);
      SingleWarnings(ProjectWriteRequested(rename));
      assert Warnings(written) == Warnings(trace);
      if co.write.ProjectWritten? {
        EngineStepWarnings(inv, ctx, co.engine, state.(projectIsSetUp := Some(co.setupFlagExists)), written);
      }
    }
  }

  /** The engine step adds the shell warning only when it completes. */
  lemma EngineStepWarnings(inv: Invocation, ctx: Context, engine: EngineOutcome, state: BootState, trace: seq<Event>)
    requires state.systemConfig.Some? && Halted(trace)
    ensures var out := LoadEngine(inv, ctx, engine, state, trace);
      Warnings(out.trace) == Warnings(trace) + ShellStageWarnings(inv, out.end.Completed?)
  {
    WarningsAppend(trace, [EngineRequested]);
    SingleWarnings(EngineRequested);
    assert Warnings(trace + [EngineRequested]) == Warnings(trace);
    if engine.EngineLoaded? {
      FinishWarnings(inv, state.(engineLoaded := true), trace + [EngineRequested]);
    }
  }

  /** The registration step adds the shell warning, under its condition, and
      no other warning. */
  lemma FinishWarnings(inv: Invocation, state: BootState, trace: seq<Event>)
    ensures Warnings(FinishLoad(inv, state, trace).trace) == Warnings(trace) + ShellStageWarnings(inv, true)
  {
    var shell := ShellCheck(inv);
    var t1 := trace + shell;
    WarningsAppend(trace, shell);
    if |shell| > 0 {
      assert shell == [Warned(ShellIntegrationDisabled)];
      SingleWarnings(Warned(ShellIntegrationDisabled));
    } else {
      assert shell == [];
    }
    assert Warnings(t1) == Warnings(trace) + ShellStageWarnings(inv, true);
    WarningsAppend(t1, Registrations(state));
    NoWarnings(Registrations(state));
  }

  /** The project-scoped groups registered once a configuration is loaded. */
  function ScopedGroups(state: BootState): seq<CommandGroup>
  {
    if state.systemConfig.Some? then [ProjectGroup, DbGroup, ImportGroup] else []
  }

  /** A completed run registers the base group, then the project, database
      and import groups exactly when a configuration was loaded; it loads
      shell integration exactly when that configuration has a project; and
      it warns about shell integration exactly without the environment
      marker outside resilient parsing. An interrupted run registers and
      loads nothing and gives no shell warning. */
  lemma {:induction false} Registration(inv: Invocation, project: Option<string>, rename: bool, kwargs: Options, co: Collaborators)
    requires PROJECT !in kwargs && "rename" !in kwargs
    ensures var out := LoadCli(inv, project, rename, kwargs, co);
      && (out.end.Completed? ==> LoadedGroups(out.trace) == [BaseGroup] + ScopedGroups(out.state))
      && (out.end.Completed? ==> (out.state.systemConfig.Some? <==> co.config.ConfigLoaded?))
      && (!out.end.Completed? ==> LoadedGroups(out.trace) == [])
      && (ShellIntegrationLoaded in out.trace <==> out.end.Completed? && co.config.ConfigLoaded? && co.config.config.hasProject)
      && (Warned(ShellIntegrationDisabled) in out.trace <==> out.end.Completed? && !inv.shellMarkerSet && !inv.resilientParsing)
  {
    var out := LoadCli(inv, project, rename, kwargs, co);
    var options := MergeOptions(kwargs);
    var ctx := Context(Some(options), None, inv.resilientParsing);
    var start := BootState(options, None, None, false);
    var requested := [ConfigRequested(project, options[UPDATE])];
    assert out == LoadConfig(inv, ctx, rename, co, start, requested);
    if !out.end.Completed? {
      NoGroups(out.trace);
    } else {
      ConfigRegistration(inv, ctx, rename, co, start, requested);
    }
  }

  /** What a run that completes in the given state registers and warns. */
  predicate RegistersFor(inv: Invocation, state: BootState, trace: seq<Event>)
  {
    && LoadedGroups(trace) == [BaseGroup] + ScopedGroups(state)
    && (ShellIntegrationLoaded in trace <==> state.systemConfig.Some? && state.systemConfig.value.hasProject)
    && (Warned(ShellIntegrationDisabled) in trace <==> !inv.shellMarkerSet && !inv.resilientParsing)
  }

  /** Registration after the configuration loader: the configuration is
      kept exactly when it was loaded. */
  lemma ConfigRegistration(inv: Invocation, ctx: Context, rename: bool, co: Collaborators, start: BootState, requested: seq<Event>)
    requires start.systemConfig.None? && ctx.options == Some(start.options) && Halted(requested)
    requires UPDATE in start.options
    ensures var out := LoadConfig(inv, ctx, rename, co, start, requested);
      out.end.Completed? ==>
        && RegistersFor(inv, out.state, out.trace)
        && (out.state.systemConfig.Some? <==> co.config.ConfigLoaded?)
        && (co.config.ConfigLoaded? ==> out.state.systemConfig == Some(co.config.config))
  {
    match co.config
    case ConfigFileNotFound =>
      var warned := MissingConfigWarning(inv, co.createConfigUserCommand);
      CompletedRun(inv, start, requested + warned);
    case ConfigLoaded(config) =>
      ProjectStepRegistration(inv, ctx, rename, co, start.(systemConfig := Some(config)), requested);
    case _ =>
  }

  lemma ProjectStepRegistration(inv: Invocation, ctx: Context, rename: bool, co: Collaborators, state: BootState, trace: seq<Event>)
    requires state.systemConfig.Some? && Halted(trace)
    ensures var out := LoadProject(inv, ctx, rename, co, state, trace);
      out.end.Completed? ==> RegistersFor(inv, out.state, out.trace)
  {
    var config := state.systemConfig.value;
    if !config.hasProject && !inv.resilientParsing {
      EngineStepRegistration(inv, ctx, co.engine, state, trace + [Warned(NoProject)]);
    } else if config.hasProject && co.write.ProjectWritten? {
      EngineStepRegistration(inv, ctx, co.engine, state.(projectIsSetUp := Some(co.setupFlagExists)), trace + [ProjectWriteRequested(rename)]);
    }
  }

  lemma EngineStepRegistration(inv: Invocation, ctx: Context, engine: EngineOutcome, state: BootState, trace: seq<Event>)
    requires state.systemConfig.Some? && Halted(trace)
    ensures var out := LoadEngine(inv, ctx, engine, state, trace);
      out.end.Completed? ==> RegistersFor(inv, out.state, out.trace)
  {
    if engine.EngineLoaded? {
      CompletedRun(inv, state.(engineLoaded := true), trace + [EngineRequested]);
    }
  }

  /** What the registration step contributes to a trace that has not yet
      registered or warned about anything it controls. */
  lemma CompletedRun(inv: Invocation, state: BootState, trace: seq<Event>)
    requires Halted(trace)
    ensures RegistersFor(inv, state, FinishLoad(inv, state, trace).trace)
  {
    var shell := ShellCheck(inv);
    var registered := Registrations(state);
    var out := FinishLoad(inv, state, trace);
    assert out.trace == (trace + shell) + registered;
    assert LoadedGroups(trace + shell) == [] by {
      NoGroups(trace);
      NoGroups(shell);
      LoadedGroupsAppend(trace, shell);
    }
    LoadedGroupsAppend(trace + shell, registered);
    RegistrationGroups(state);
  }

  /** A trace without registrations has no groups. */
  lemma {:induction false} NoGroups(trace: seq<Event>)
    requires forall e :: e in trace ==> !e.GroupLoaded?
    ensures LoadedGroups(trace) == []
  {
    if |trace| > 0 {
      assert trace[0] in trace;
      NoGroups(trace[1..]);
    }
  }

  lemma SingleGroup(e: Event)
    ensures LoadedGroups([e]) == if e.GroupLoaded? then [e.group] else []
  {
    assert [e][1..] == [];
  }

  /** The groups the registration step registers, in order. */
  lemma RegistrationGroups(state: BootState)
    ensures LoadedGroups(Registrations(state)) == [BaseGroup] + ScopedGroups(state)
  {
    LoadedGroupsAppend([GroupLoaded(BaseGroup)], ScopedRegistrations(state.systemConfig));
    SingleGroup(GroupLoaded(BaseGroup));
    if state.systemConfig.Some? {
      ScopedRegistrationGroups(state.systemConfig.value);
    }
  }

  lemma ScopedRegistrationGroups(config: SystemConfig)
    ensures LoadedGroups(ScopedRegistrations(Some(config))) == [ProjectGroup, DbGroup, ImportGroup]
  {
    var extra := if config.hasProject then [ShellIntegrationLoaded] else [];
    LoadedGroupsAppend(SCOPED_GROUPS, extra);
    NoGroups(extra);
    ScopedGroupsInOrder();
  }

  lemma ScopedGroupsInOrder()
    ensures LoadedGroups(SCOPED_GROUPS) == [ProjectGroup, DbGroup, ImportGroup]
  {
    var s := SCOPED_GROUPS;
    assert s[1..] == [GroupLoaded(DbGroup), GroupLoaded(ImportGroup)];
    assert s[1..][1..] == [GroupLoaded(ImportGroup)];
    assert s[1..][1..][1..] == [];
  }

  // ----- The run as the command line starts it -----

  /** Started from the command line, the update flag alone decides whether
      a missing referenced document carries the re-run hint. */
  lemma BootstrapRerunHint(inv: Invocation, flags: Flags, co: Collaborators)
    requires co.config.ReferencedDocumentNotFound?
    ensures var out := Bootstrap(inv, flags, co);
      && out.end.Fatal?
      && out.end.error.message
         == REFERENCED_DOCUMENT_MESSAGE + (if flags.update then "" else RerunNote(inv.argv))
  {
    MissingReferencedDocumentIsFatal(inv, flags.project, flags.rename, CallbackKwargs(flags), co);
  }

  /** How a bootstrap error is displayed: nothing during resilient parsing,
      the traceback with the verbose flag, and otherwise the message, the
      cause and the hint, since every bootstrap error has a cause. */
  lemma BootstrapErrorDisplay(inv: Invocation, flags: Flags, co: Collaborators)
    requires Bootstrap(inv, flags, co).end.Fatal?
    ensures var err := Bootstrap(inv, flags, co).end.error;
      && err.cause.Some?
      && Show(err, None)
         == if inv.resilientParsing then []
            else if flags.verbose then [Traceback]
            else [Message(err.message), CauseLine(CAUSE_PREFIX + err.cause.value), BlankLine, VerboseHint]
  {
  }
}
