/** The script as a whole (aperture.js lines 26-45): build the command
    table, resolve the command, load the configuration, and run the chosen
    handler with a completion callback that throws any error it receives. */
module Aperture {

  import opened Base
  import opened Commands
  import opened Dispatcher
  import opened BulkCommand

  /** How one run of the script ends, as far as this model follows it. */
  datatype Launched =
    | ShowUsage                               // help(): usage text, no handler
    | Fatal(error: string)                    // an error thrown at top level
    | Invoked(handler: Handler)               // a handler other than bulk was called
    | BulkInvoked(spec: BulkSpec, bail: bool) // the bulk subsystem was called

  /** The settings the configuration loader returns, or its error. */
  datatype LoadedConfig = LoadedConfig(bail: bool, bulk: Option<BulkSpec>, settings: map<string, string>)

  /** One run on the parsed command line `raw` (the positional arguments,
      the version flag, and the bail value when its key is present) and the
      configuration loader's result. */
  method Launch(raw: seq<string>, version: bool, bail: Option<bool>, loaded: Result<LoadedConfig>)
    returns (o: Launched)
    ensures o == ShowUsage <==> !version && (raw == [] || raw[0] !in Names)
    ensures version ==> o == (if loaded.Failure? then Fatal(loaded.error) else Invoked(Version))
    ensures o.Invoked? ==>
      o.handler != Bulk && (version || raw != []) &&
      o.handler == CommandTable()[if version then "version" else raw[0]]
    ensures o.BulkInvoked? ==>
      !version && |raw| >= 2 && raw[0] in {"each", "bulk"} && raw[1] != "" && loaded.Success?
    ensures !version && raw != [] && raw[0] in Names && loaded.Failure? ==>
      o == Fatal(loaded.error)
    ensures !version && raw != [] && raw[0] in Names - {"each", "bulk"} && loaded.Success? ==>
      o == Invoked(CommandTable()[raw[0]])
    ensures !version && raw != [] && raw[0] in {"each", "bulk"} && loaded.Success? ==>
      o == if |raw| >= 2 && raw[1] != ""
           then BulkInvoked(BulkSpec(Some(raw[1]), raw[2..]),
                            if bail.Some? then bail.value else loaded.value.bail)
           else Fatal(MissingCommand)
  {
    var commands := DefineCommands();
    var argv := new Argv(raw, version, bail);
    var r := Dispatch(commands, argv);
    UsageExactlyForUnknownNames(raw);
    if r.Usage? {
      return ShowUsage;
    }
    if loaded.Failure? {
      return Fatal(loaded.error);
    }
    var config := new Configuration(loaded.value.bail, loaded.value.bulk, loaded.value.settings);
    if r.handler != Bulk {
      return Invoked(r.handler);
    }
    var started := BulkHandler(argv, config);
    match started
      case Rejected(e) => return Fatal(e);
      // the bulk subsystem's completion callback is BulkCompletion
      case Started(spec, b) => return BulkInvoked(spec, b);
  }
}
