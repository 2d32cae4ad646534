# aperture: command dispatch, bulk parameters and listing output

This project models the command-line front end of `aperture`, a tool that
manages linked local modules. It covers the part of `aperture.js` that makes
decisions rather than handing work to other modules:

- **Command resolution.** The script shifts the command name off the
  positional arguments. The `--version` flag overrides that name. A missing
  or unknown name shows usage and runs no handler.
- **The command table.** Six alias pairs (`ln`/`link`, `dedupe`/`purge`,
  `isntall`/`install`, `each`/`bulk`, `init`/`open`, `ls`/`list`) each share
  one handler. The single names are `version`, `config` and `expand`.
- **The bulk handler.** It writes `bail`, `bulk.command` and `bulk.args` into
  the shared configuration object. It rejects an absent or empty command.
  When the bulk run completes, any failed module means exit code 1.
- **The list handler.** It prints one directory per module, joined by
  newlines.

Layout, one module per component:

- `base.dfy` (`Base`): optional values, results, module records, and
  JavaScript truthiness of an optional string.
- `commands.dfy` (`Commands`): the handler identities and the table built by
  `defineCommands`. It also has the table lookup as written and restricted
  to the table's own names.
- `dispatch.dfy` (`Dispatcher`): the parsed command line as a class whose
  positional list is shifted in place, the resolution function, and the
  dispatch method of lines 29-32.
- `bulk.dfy` (`BulkCommand`): the configuration object as a class, the bulk
  handler that updates it, and the completion callback's exit decision.
- `listing.dfy` (`Listing`): directories, `join`, and `split` as its inverse.
- `aperture.dfy` (`Aperture`): one run of the script from the parsed command
  line and the configuration loader's result to its outcome.

The parsed command line, the configuration loader's result, the bulk
subsystem's result and the module listing are all parameters. Nothing is
read from the environment.

Two points about `aperture.js` shape the model:

- `version` is an ordinary entry in the command table. It is dispatched only
  after the configuration has loaded (line 34), as every other command is.
  So a configuration error is fatal even under `--version`.
  `Aperture.Launch` states this.
- The main dispatch path (`Dispatcher.Dispatch`, `Aperture.Launch`) looks
  up only the table's own names. The lookup on line 32 also finds names
  inherited from Object.prototype. That lookup is modelled separately, for
  the reason given under "## Findings".

## Model

| member | source | states |
|---|---|---|
| Commands.DefineCommands | aperture.js:57-190 | the table built by repeated assignment has exactly the fifteen names (six alias pairs plus `version`, `config`, `expand`) and is the table every lookup uses |
| Commands.SameHandlerExactlyForAliases | aperture.js:57-189 | two names in the table select the same handler if and only if they are the same name or an alias pair |
| Commands.LookupAsWritten | aperture.js:32 | `commands[name]` on a plain object finds an own handler exactly for table names, and an inherited member exactly for Object.prototype names |
| Commands.LookupOwn | aperture.js:32 | the corrected lookup finds a handler exactly for table names, and it is that name's table entry |
| Dispatcher.Argv.Shift | aperture.js:29 | shifting returns the first positional argument, or undefined on an empty list, and leaves the rest of the list in order |
| Dispatcher.Dispatch | aperture.js:29-32 | the outcome is the resolution of the original positional list under the version flag, and the list is left holding the arguments after the command name |
| Dispatcher.VersionOverridesCommand | aperture.js:30 | with the version flag set, the `version` handler runs whatever positional command was given |
| Dispatcher.UsageExactlyForUnknownNames | aperture.js:31-32 | without the version flag, usage is shown if and only if no command is given or the name is not in the table; otherwise that name's handler runs |
| Dispatcher.PrototypeNameSkipsUsage | aperture.js:32 | as written, a name inherited from Object.prototype passes both usage checks, while the corrected resolution shows usage for it |
| Dispatcher.AsWrittenAgreesOffPrototype | aperture.js:31-32 | for every command that is not an Object.prototype name, the code as written and the corrected resolution agree |
| BulkCommand.BulkHandler | aperture.js:98-113 | the CLI bail value, when present, replaces the configured one; `bulk.command` is the first remaining positional and `bulk.args` the rest, in order; nothing else in the configuration changes; an absent or empty command ends with the fixed error and the bulk subsystem is not invoked |
| BulkCommand.BulkCompletion | aperture.js:118-121 | an error is thrown; otherwise the exit code is 1 exactly when `failed` is non-empty, and no exit is forced when it is empty |
| Listing.Directories | aperture.js:169-171 | one directory per module record, at the same position |
| Listing.ListHandler | aperture.js:166-173 | a listing error is rethrown as the same error; an empty listing prints the empty string |
| Listing.SplitJoin | aperture.js:173 | splitting the newline-joined text gives back the parts, when there is at least one part and none contains the separator |
| Listing.ListPrintsOneLinePerModule | aperture.js:169-173 | the printed listing has exactly one line per module, in the provider's order, each line being that module's directory |
| Aperture.Launch | aperture.js:26-45 | from the raw command line: usage exactly for a missing or unknown command without `--version`; for a known command, a configuration error is thrown as it is, and otherwise a non-bulk name invokes its table handler; `--version` runs the version handler once configuration loads; `each`/`bulk` runs the bulk subsystem with the argument after the command name as its command, every later argument as its arguments, and the CLI bail value taking precedence, or fails with the missing-command error when there is no non-empty such argument |

## Findings

| source | as written | input that shows it | evidently intended | confidence | as-written member | corrected member |
|---|---|---|---|---|---|---|
| aperture.js:32 | `if (!commands[command]) return help()` reads a property of the plain object literal `commands` (line 9), which also finds Object.prototype members | `aperture toString`: the lookup yields `Object.prototype.toString`, usage is not shown, and that built-in is called in place of a handler (for `__proto__` the call throws) | usage for every name that `defineCommands` did not define | high; not executed | Dispatcher.PrototypeNameSkipsUsage | Dispatcher.UsageExactlyForUnknownNames |

`Dispatcher.Dispatch`, `Dispatcher.Resolve` and `Aperture.Launch` use the
corrected lookup `Commands.LookupOwn`.

## Left out

- Argument parsing by `optimist` (lines 11-24) is a foreign library. The positional list, the version flag and the bail value (present or absent) are inputs. Whether `bail` is always present depends on optimist's boolean defaults. Optimist's conversion of numeric-looking arguments to numbers (so that `aperture bulk 0` has a falsy command) is not modelled: positional arguments are strings.
- Resolving the working directory (line 26, `process.cwd`, `path.resolve`) is environment. No model member takes the root directory.
- Configuration loading (`./commands/config`, line 34) is not part of this model. Its result is a parameter of `Aperture.Launch`.
- The subsystems `./commands/link`, `purge`, `install`, `bulk`, `open`, `list` and `expand` are not part of this model. This includes the per-module bulk loop. `Aperture.Launch` ends at the handler it invokes, and the bulk result and the module listing are parameters.
- Event listener wiring, console output, `chalk` colouring and progress percentages (lines 64-93, 127-147) are presentation on Node's EventEmitter.
- `help()` reading `usage.txt` (lines 47-55), the `version` handler printing `package.json` (line 158), and the `config` handler printing the configuration as JSON (line 179) are I/O. They appear only as the outcomes `ShowUsage` and `Invoked(...)`.
- Thrown errors (lines 35, 43, 119, 167) and `process.exit` (line 120) terminate the process. They are modelled as the outcomes `Fatal`/`Throw` and `Exit(1)`.
- BulkCommand.Configuration: a configured `bail` is a boolean; a configuration without the key (undefined, which is falsy) is modelled as `false`.
