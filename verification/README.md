# Riptide CLI start-up, modelled in Dafny

This project models the start-up path of the Riptide command-line interface.
That path is the group callback `load_cli`, which runs before every
subcommand, together with the helpers it relies on.

- **Option mapping.** The callback fills the mapping from defaults and
  keyword arguments.
- **Configuration loading.** It asks the configuration loader for the system
  and project configuration. A missing configuration file gives a warning,
  unless the create-config command may have been invoked (it is among the
  protected arguments) or parsing is resilient. A missing referenced document
  and any other loader failure are fatal.
- **Project.** With a loaded configuration that has a project, it records the
  project in the project registry. A name collision reported by the registry
  is fatal, with the registry's own message; only after a successful write does
  it check whether project setup has run, and only then is the engine loaded.
  A configuration without a project gives the "No project found" warning
  outside resilient parsing; during resilient parsing it ends in the crash
  described below.
- **Engine.** It loads the engine once a configuration is loaded, after the
  project was recorded when there is one. An unknown engine and a failed
  connection to the engine are both fatal, each with its own fixed message.
- **Shell integration.** On a run that gets this far, it warns when shell
  integration is not enabled, outside resilient parsing.
- **Command groups.** It registers the base command group. When a
  configuration was loaded it also registers the project, database and import
  groups, and when that configuration has a project it loads shell
  integration.

Every collaborator is an input outcome: the configuration loader, project
registry, engine loader, setup-flag file and environment. `Main.LoadCli` is a
pure function from those outcomes to an `Outcome`, which holds three things:

- the ordered trace of observable events: collaborator calls, warnings and
  registrations;
- the final context state: options, configuration, setup status and engine;
- how the callback ended:
  - `Completed`;
  - `Fatal`, with the reportable `CliError`;
  - `Crashed`, for the uncaught lookup of a missing `"project"` entry. This
    happens when a configuration without a project is loaded during resilient
    parsing: the no-project warning is skipped, so the project branch runs
    and indexes the missing key.

When `--update` was not given, the missing-document error message carries a
re-run hint: the process arguments with `--update` inserted after the program
name, joined by spaces. With `--update` the message is the bare sentence.
It is modelled with Python's `list.insert` and `str.join`. The hint is proved
to decode with `str.split` whenever no argument contains a space. An argument
that contains one makes the hint ambiguous.

The helpers are modelled as well:

- **Verbosity.** `GetIsVerbose` is the one-level lookup of the verbose flag
  over the context chain.
- **Reportable error.** It has a constructor, and `raise … from` attaches a
  cause. Its display, `Show`, is a function returning abstract output lines:
  `Traceback`, `Message`, `CauseLine`, `BlankLine` and `VerboseHint`.
- **Section tag.** `CliSection` is the tag attached to command callbacks.

Modules:

- `Text` (`text.dfy`): `Insert`, `Join`, `Split` and their round trips.
- `Helpers` (`helpers.dfy`): the helpers.
- `Main` (`main.dfy`): the callback.
- `MainProperties` (`main_properties.dfy`): properties of the callback across
  its stages.

## Model

| member | source | states |
|---|---|---|
| `Main.MergeOptions` | riptide_cli/main.py:35-40 | the mapping has the default keys plus the keyword keys; a keyword value overrides the default with the same key; every other default is kept |
| `Main.CallbackKwargs` | riptide_cli/main.py:108-117 | the callback's keyword arguments are exactly `verbose` and `update`, carrying the flags; `project` and `rename` are bound to named parameters |
| `Main.Bootstrap` | riptide_cli/main.py:28-40 | started from the command line, the options are `project=None`, `verbose` and `update` as given: the project option stays `None` whatever project path is passed |
| `Main.LoadCli` | riptide_cli/main.py:28-99 | the options are the merge of defaults and keyword arguments, with `project` still `None`; the first event is the configuration request with the `update` option; a run that does not complete registers nothing, loads no shell integration and gives no shell warning; every reportable error carries the callback's context and a cause (which exception it is, per failure, is stated by `MissingReferencedDocumentIsFatal`, `OtherConfigErrorIsFatal`, `ProjectRegistration` and `EngineLoading`) |
| `Main.LoadConfig` | riptide_cli/main.py:46-64 | the loader's outcome decides the run: options are untouched, the trace only grows, a run that stops is halted, and a fatal error has the callback's context and a cause |
| `Main.WarningText` | riptide_cli/main.py:52 | the missing-file warning starts with the fixed sentence and then names the create-config command it was given |
| `MainProperties.WarningTextIdentifies` | riptide_cli/main.py:52-86 | two warnings have the same text exactly when they are the same warning: the three texts are distinct, and the missing-file text determines the command it names |
| `Main.MissingConfigWarning` | riptide_cli/main.py:48-53 | at most one event, the missing-file warning naming the create-config command; it is present exactly when that command is not among the protected arguments and parsing is not resilient |
| `Main.LoadProject` | riptide_cli/main.py:64-76 | the trace only grows; options and configuration are unchanged; a run that stops here is halted; a fatal error has the callback's context and a cause |
| `Main.LoadEngine` | riptide_cli/main.py:77-83 | the trace only grows; only the engine flag of the state may change; it never ends with a missing key; a fatal end is halted and carries the context and a cause |
| `Main.FinishLoad` | riptide_cli/main.py:85-99 | the run completes with the state unchanged, only appending to the trace |
| `Main.ShellCheck` | riptide_cli/main.py:85-88 | only the shell warning, and present exactly when the environment marker is absent and parsing is not resilient |
| `Main.Registrations` | riptide_cli/main.py:90-99 | only group and shell-integration events; the base group first; with a configuration the project, database and import groups next, in that order; the project group exactly when a configuration is loaded; shell integration exactly when that configuration has a project |
| `Main.ScopedRegistrations` | riptide_cli/main.py:92-99 | nothing without a configuration; with one the project, database and import groups in that order; the project group exactly with a configuration, shell integration exactly with a configuration that has a project |
| `MainProperties.RegistrationGroups` | riptide_cli/main.py:90-95 | the groups registered are the base group followed, exactly when a configuration is loaded, by the project, database and import groups |
| `MainProperties.EndingCharacterised` | riptide_cli/main.py:46-99 | the run is fatal exactly for a missing document, another loader error, a name collision, or an engine failure once the engine is reached; it crashes exactly when a project-less configuration meets resilient parsing, on the key `"project"` and before any project write; otherwise it completes |
| `MainProperties.WarningsNeverHalt` | riptide_cli/main.py:48-88 | the inputs that only gate warnings (protected arguments, the shell marker) never change how the run ends |
| `MainProperties.MissingConfigFileWarns` | riptide_cli/main.py:45-53 | a missing configuration file is not fatal, leaves no configuration, setup status or engine, and does not call the engine loader; the warning appears exactly when the create-config command is not protected and parsing is not resilient |
| `MainProperties.MissingReferencedDocumentIsFatal` | riptide_cli/main.py:54-61 | a missing referenced document is fatal after only the configuration request, with the loader's exception as cause and the fixed message, followed by the re-run hint exactly when `update` is not set |
| `MainProperties.OtherConfigErrorIsFatal` | riptide_cli/main.py:62-63 | any other loader failure is fatal with exactly the parse-error message and the loader's exception as cause |
| `MainProperties.BootstrapRerunHint` | riptide_cli/main.py:54-61 | from the command line, the update flag alone decides whether the missing-document message carries the re-run hint |
| `MainProperties.RerunNoteRecoversArguments` | riptide_cli/main.py:57-60 | the hint is the header and two tabs followed by a line that splits on spaces back into the arguments with `--update` at index 1, whenever no argument contains a space |
| `MainProperties.RerunCommandStartsWithUpdate` | riptide_cli/main.py:58-60 | the re-run line starts with the program name, a space and `--update` |
| `MainProperties.RerunNoteIsAmbiguousWithSpaces` | riptide_cli/main.py:58-60 | an argument `a b` and the two arguments `a`, `b` give the same hint, so the no-space condition of the recovery is needed |
| `MainProperties.ProjectRegistration` | riptide_cli/main.py:64-76 | with a project, the registry is asked to record it; a collision is fatal with the registry's message unchanged, the registry's exception as cause, and the engine is never requested; on success the setup status is the existence of the flag file; without a project nothing is written and the status stays unset |
| `MainProperties.CollisionShowsRegistryTextTwice` | riptide_cli/main.py:72-73 | shown quietly, a name-collision error prints the registry's text twice: as the message and again in the cause line, followed by the blank line and the `-v` hint |
| `MainProperties.EngineLoading` | riptide_cli/main.py:77-83 | the engine is requested exactly when the run reaches it, with or without a project; it is loaded exactly then and on success; an unknown engine and a failed connection each end with their fixed message and the engine's exception as cause |
| `MainProperties.EngineMessagesDistinct` | riptide_cli/main.py:80-83 | the two engine failures have different messages |
| `MainProperties.WarningsInOrder` | riptide_cli/main.py:46-88 | the warnings of any run are the configuration-stage warning (missing file or missing project, each under its condition) followed by the shell warning on a completed run, each at most once, in stage order |
| `MainProperties.Registration` | riptide_cli/main.py:85-99 | a completed run registers the base group, then the project, database and import groups exactly when a configuration was loaded; it loads shell integration exactly when that configuration has a project; it warns about the shell exactly without the marker outside resilient parsing; a run that does not complete registers nothing |
| `MainProperties.BootstrapErrorDisplay` | riptide_cli/main.py:61-83 | every error of the callback has a cause, so its display is nothing during resilient parsing, the traceback with `--verbose`, and otherwise the message, the cause line, a blank line and the `-v` hint |
| `Helpers.OwnOptionsDecide` | riptide_cli/helpers.py:10-11 | a context with options answers with its own verbose flag, whatever its parent |
| `Helpers.ParentDecidesOneLevel` | riptide_cli/helpers.py:12-14 | a context without options answers with its parent's flag, and the grandparent is never consulted |
| `Helpers.DefaultIsVerbose` | riptide_cli/helpers.py:15 | with no options on the context or its parent the answer is verbose, even when a grandparent turns verbosity off |
| `Helpers.NewCliError` | riptide_cli/helpers.py:20-22 | the constructor keeps the message and the context and attaches no cause |
| `Helpers.RaiseFrom` | riptide_cli/main.py:61 | raising from an exception keeps message and context and makes that exception the cause |
| `Helpers.Show` | riptide_cli/helpers.py:24-38 | nothing during resilient parsing; otherwise the traceback exactly when verbose or given a file, and then only the traceback; in quiet mode the message first, the cause line and the hint exactly when there is a cause, and only the message without one |
| `Helpers.ExplicitFileForcesTraceback` | riptide_cli/helpers.py:27-32 | an explicit output file gives the traceback even when verbosity is off |
| `Helpers.ShownMessageIsConstructorMessage` | riptide_cli/helpers.py:20-38 | in quiet mode a fresh error shows exactly its constructor message; raised from an exception it adds the cause line, a blank line and the hint |
| `Helpers.CliSection` | riptide_cli/helpers.py:45-55 | the callback gets the section; name, parameters and documentation are unchanged |
| `Helpers.CliSectionLastWins` | riptide_cli/helpers.py:52-54 | tagging twice keeps the last section; re-tagging with the same section changes nothing |
| `Helpers.CliSectionChangesOnlySection` | riptide_cli/helpers.py:52-54 | two tagged callbacks are equal exactly when they were equal apart from their sections |
| `Text.Insert` | riptide_cli/main.py:59 | `list.insert`: one longer, the element at the clamped index, the prefix before and the suffix after unchanged |
| `Text.InsertIsPermutation` | riptide_cli/main.py:59 | inserting adds exactly one occurrence of the element to the multiset of the list |
| `Text.InsertAfterHead` | riptide_cli/main.py:59 | inserting at index 1 puts the element right after the program name |
| `Text.Split` | riptide_cli/main.py:60 | the inverse of the join: at least one piece, none containing the separator |
| `Text.SplitJoin` | riptide_cli/main.py:60 | splitting the join of pieces without the separator gives the pieces back |
| `Text.JoinSplit` | riptide_cli/main.py:60 | joining the split of any string gives the string back |

## Left out

- `async_command` (riptide_cli/helpers.py:58-69) wraps a command in an asyncio event loop. Concurrency is out of scope.
- The click group and option declarations (riptide_cli/main.py:102-123) are framework wiring. `Main.CallbackKwargs` states what they deliver, which assumes the group class passes every declared option it does not bind to a named parameter as a keyword argument. `riptide_cli/click.py`, which defines that group class, is not part of this model.
- The collaborators are input outcomes and are not modelled:
  - `load_config`, `write_project` and `load_engine`;
  - `load_shell_integration` and the command modules' `load` functions, which are recorded as events;
  - the setup-flag path and `os.path.exists`, which are a boolean input;
  - `os.environ`, which is a boolean input.
  Only the exceptions the callback handles are modelled. A collaborator failure the callback does not catch is not modelled; examples are a missing `"engine"` entry, or a failure in registration or shell integration.
- The value of `COMMAND_CREATE_CONFIG_USER` is defined in riptide_cli/command/base.py, which is not part of this model. It is a field of the collaborator outcomes.
- The `update_func` progress callback passed to the configuration loader is left out, because it only prints.
- Output styling, colours, the "Warning: " prefix and the blank `echo()` after each warning are left out. So are the stream each line goes to (the blank line of the error display goes to standard output) and the text of the traceback. Lines and warnings are abstract tags.
- `Helpers.GetIsVerbose` requires the mapping it consults to have a `"verbose"` entry. Without one the source raises `KeyError`. The callback's mapping always has the entry (`Main.MergeOptions` keeps every default), so no reportable error of the callback hits this.
- Python's `list.insert` with a negative index is not modelled, because the callback only inserts at index 1.
- The re-run hint does not quote arguments. `MainProperties.RerunNoteIsAmbiguousWithSpaces` shows the hint line is ambiguous when arguments contain spaces. This is recorded as behaviour, not as a defect, because the line is meant for a human reader.
- setup.py is packaging metadata.
