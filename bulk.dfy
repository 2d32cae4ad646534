/** The `bulk`/`each` handler (aperture.js lines 98-123): it derives the bulk
    parameters from the command line into the shared configuration, rejects
    a run without a command, and turns the bulk result into an exit code. */
module BulkCommand {

  import opened Base
  import opened Dispatcher

  /** `config.bulk`: the command to run in every module and its arguments. */
  datatype BulkSpec = BulkSpec(command: Option<string>, args: seq<string>)

  /** The configuration object shared with the handler. `settings` stands
      for every other key loaded from the configuration file. */
  class Configuration {
    var bail: bool
    var bulk: Option<BulkSpec>
    var settings: map<string, string>

    constructor (bail: bool, bulk: Option<BulkSpec>, settings: map<string, string>)
      ensures this.bail == bail && this.bulk == bulk && this.settings == settings
    {
      this.bail := bail;
      this.bulk := bulk;
      this.settings := settings;
    }
  }

  /** The error passed to `done` when no command follows `bulk`. */
  const MissingCommand: string := "You must supply bulk command with a command object."

  /** How the handler ends: `done` with an error, or the bulk subsystem
      invoked with this command, these arguments and this bail setting. */
  datatype BulkStart = Rejected(error: string) | Started(spec: BulkSpec, bail: bool)

  /** The handler body. `argv.positional` no longer holds the command name,
      which the dispatcher shifted off. The command-line bail value, when
      present, replaces the configured one; the first remaining positional
      argument is the bulk command and the others its arguments, in order.
      Both fields are written before the command is checked, and nothing
      else in the configuration changes. An absent or empty command ends
      the handler with an error and the bulk subsystem is not invoked. */
  method BulkHandler(argv: Argv, config: Configuration) returns (r: BulkStart)
    modifies config`bail, config`bulk
    ensures config.bail == (if argv.bail.Some? then argv.bail.value else old(config.bail))
    ensures config.bulk == Some(BulkSpec(First(argv.positional), Rest(argv.positional)))
    ensures r.Rejected? <==> !Truthy(First(argv.positional))
    ensures r.Rejected? ==> r.error == MissingCommand
    ensures r.Started? ==> r.spec == config.bulk.value && r.bail == config.bail
  {
    config.bail := if argv.bail.Some? then argv.bail.value else config.bail;
    config.bulk := Some(BulkSpec(First(argv.positional), Rest(argv.positional)));
    if !Truthy(config.bulk.value.command) {
      return Rejected(MissingCommand);
    }
    return Started(config.bulk.value, config.bail);
  }

  /** The result the bulk subsystem reports on completion. */
  datatype BulkInfo = BulkInfo(succeeded: seq<ModuleRecord>, failed: seq<ModuleRecord>)

  /** What the process does after a completion callback: nothing forced, a
      controlled exit with a code, or a thrown error. */
  datatype ExitAction = NoExit | Exit(code: int) | Throw(error: string)

  /** The bulk completion callback (lines 118-121): an error is thrown; a
      result with any failed module exits with code 1; a result with none
      forces no exit. */
  function BulkCompletion(outcome: Result<BulkInfo>): (a: ExitAction)
    ensures a.Throw? <==> outcome.Failure?
    ensures a.Throw? ==> a.error == outcome.error
    ensures a == Exit(1) <==> outcome.Success? && outcome.value.failed != []
    ensures a == NoExit <==> outcome.Success? && outcome.value.failed == []
  {
    match outcome
      case Failure(e) => Throw(e)
      case Success(info) => if |info.failed| > 0 then Exit(1) else NoExit
  }
}
