/** Command resolution (aperture.js lines 29-32): the first positional
    argument is shifted off the parsed argument list, the version flag
    overrides it, and a missing or unknown name shows usage instead of
    running a handler. */
module Dispatcher {

  import opened Base
  import opened Commands

  /** The parsed command line. `positional` is the list the source shifts
      in place; `bail` is `Some(v)` when the key `bail` is present. */
  class Argv {
    var positional: seq<string>
    const version: bool
    const bail: Option<bool>

    constructor (positional: seq<string>, version: bool, bail: Option<bool>)
      ensures this.positional == positional
      ensures this.version == version && this.bail == bail
    {
      this.positional := positional;
      this.version := version;
      this.bail := bail;
    }

    /** `argv._.shift()`: removes and returns the first positional argument;
        on an empty list it returns undefined and changes nothing. */
    method Shift() returns (head: Option<string>)
      modifies this`positional
      ensures head == First(old(positional))
      ensures positional == Rest(old(positional))
    {
      if positional == [] {
        head := None;
      } else {
        head := Some(positional[0]);
        positional := positional[1..];
      }
    }
  }

  /** The first element of a list, undefined when it is empty. */
  function First(s: seq<string>): (h: Option<string>)
    ensures h.Some? <==> |s| > 0
    ensures h.Some? ==> h.value == s[0]
  {
    if s == [] then None else Some(s[0])
  }

  /** The list left after a shift. */
  function Rest(s: seq<string>): (t: seq<string>)
    ensures s == [] ==> t == []
    ensures s != [] ==> [s[0]] + t == s
  {
    if s == [] then [] else s[1..]
  }

  /** What the script does once the command is resolved. */
  datatype Resolution = Usage | Run(handler: Handler)

  /** The resolution of the command named by the positional arguments, under
      the version flag. */
  function Resolve(positional: seq<string>, version: bool): Resolution
  {
    var command := if version then Some("version") else First(positional);
    if !Truthy(command) then Usage
    else match LookupOwn(command.value)
      case None => Usage
      case Some(h) => Run(h)
  }

  /** Lines 29-32: shift the command name off the positional list, let the
      version flag override it, and show usage for a missing or unknown name.
      The list is left holding the arguments after the command name.
      `commands` is the table `defineCommands` built at start-up. */
  method Dispatch(commands: map<string, Handler>, argv: Argv) returns (r: Resolution)
    requires commands == CommandTable()
    modifies argv`positional
    ensures r == Resolve(old(argv.positional), argv.version)
    ensures argv.positional == Rest(old(argv.positional))
  {
    var command := argv.Shift();
    if argv.version {
      command := Some("version");
    }
    if !Truthy(command) {
      return Usage;
    }
    if command.value !in commands {
      return Usage;
    }
    return Run(commands[command.value]);
  }

  /** The version flag wins over any positional command. */
  lemma VersionOverridesCommand(positional: seq<string>)
    ensures Resolve(positional, true) == Run(Version)
  {
  }

  /** Without the version flag, usage is shown exactly when no command is
      given or the name is not in the table; otherwise the named handler
      runs. */
  lemma UsageExactlyForUnknownNames(positional: seq<string>)
    ensures Resolve(positional, false) == Usage <==>
      positional == [] || positional[0] !in Names
    ensures positional != [] && positional[0] in Names ==>
      Resolve(positional, false) == Run(CommandTable()[positional[0]])
  {
  }

  // ---------------------------------------------------------------------
  // Lines 31-32 as written: `!commands[command]` on a plain object.

  /** Undefined stands for "usage is shown". */
  function ResolveAsWritten(positional: seq<string>, version: bool): Lookup
  {
    var command := if version then Some("version") else First(positional);
    if !Truthy(command) then Undefined else LookupAsWritten(command.value)
  }

  /** A name inherited from Object.prototype (`aperture toString`) passes
      both usage checks: no usage is shown, and the inherited member is
      called in place of a handler. */
  lemma PrototypeNameSkipsUsage(name: string, rest: seq<string>)
    requires name in PrototypeNames
    ensures ResolveAsWritten([name] + rest, false) == Inherited(name)
    ensures Resolve([name] + rest, false) == Usage
  {
  }

  /** Away from the inherited names the code as written and the corrected
      resolution agree. */
  lemma AsWrittenAgreesOffPrototype(positional: seq<string>, version: bool)
    requires !version ==> positional == [] || positional[0] !in PrototypeNames
    ensures ResolveAsWritten(positional, version) ==
      match Resolve(positional, version)
        case Usage => Undefined
        case Run(h) => Own(h)
  {
  }
}
