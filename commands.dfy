/** The command table: which handler each command name on the command line
    selects (aperture.js, defineCommands). */
module Commands {

  import opened Base

  /** The distinct handler functions of the table. Two names that are bound
      by one chained assignment (`commands.ln = commands.link = function ...`)
      share one handler. */
  datatype Handler = Link | Purge | Install | Bulk | Open | Version | List | Config | Expand

  /** The alias pairs, each bound to one shared handler. */
  const AliasPairs: set<(string, string)> :=
    {("ln", "link"), ("dedupe", "purge"), ("isntall", "install"),
     ("each", "bulk"), ("init", "open"), ("ls", "list")}

  /** Every name the table defines: both names of each alias pair, plus the
      single names `version`, `config` and `expand`. */
  const Names: set<string> :=
    {"ln", "link", "dedupe", "purge", "isntall", "install", "each", "bulk",
     "init", "open", "ls", "list", "version", "config", "expand"}

  /** Two table names select the same handler exactly when they are the same
      name or an alias pair. */
  predicate Aliases(a: string, b: string)
  {
    a == b || (a, b) in AliasPairs || (b, a) in AliasPairs
  }

  /** The table as it stands once `defineCommands` has run. */
  function CommandTable(): map<string, Handler>
  {
    map["ln" := Link, "link" := Link,
        "dedupe" := Purge, "purge" := Purge,
        "isntall" := Install, "install" := Install,
        "each" := Bulk, "bulk" := Bulk,
        "init" := Open, "open" := Open,
        "version" := Version,
        "ls" := List, "list" := List,
        "config" := Config,
        "expand" := Expand]
  }

  /** `defineCommands`: fills the initially empty table one assignment at a
      time. The result has exactly the names above, and is the table every
      lookup uses. */
  method DefineCommands() returns (commands: map<string, Handler>)
    ensures commands.Keys == Names
    ensures commands == CommandTable()
  {
    commands := map[];
    // a chained assignment `x.a = x.b = f` binds b first, then a
    commands := commands["link" := Link];
    commands := commands["ln" := Link];
    commands := commands["purge" := Purge];
    commands := commands["dedupe" := Purge];
    commands := commands["install" := Install];
    commands := commands["isntall" := Install];
    commands := commands["bulk" := Bulk];
    commands := commands["each" := Bulk];
    commands := commands["open" := Open];
    commands := commands["init" := Open];
    commands := commands["version" := Version];
    commands := commands["list" := List];
    commands := commands["ls" := List];
    commands := commands["config" := Config];
    commands := commands["expand" := Expand];
  }

  /** Two names of the table select the same handler exactly when they are
      aliases of each other: every alias pair shares one handler, and no
      handler is reachable under a third name. */
  lemma SameHandlerExactlyForAliases(a: string, b: string)
    requires a in CommandTable() && b in CommandTable()
    ensures CommandTable()[a] == CommandTable()[b] <==> Aliases(a, b)
  {
  }

  // ---------------------------------------------------------------------
  // The lookup `commands[command]` as written: `commands` is a plain object
  // literal, so a property read also finds the members every object
  // inherits from Object.prototype.

  /** The property names every plain object inherits from Object.prototype. */
  const PrototypeNames: set<string> :=
    {"constructor", "toString", "toLocaleString", "valueOf", "hasOwnProperty",
     "isPrototypeOf", "propertyIsEnumerable", "__defineGetter__",
     "__defineSetter__", "__lookupGetter__", "__lookupSetter__", "__proto__"}

  /** What `commands[name]` yields on the plain object. */
  datatype Lookup = Own(handler: Handler) | Inherited(name: string) | Undefined

  function LookupAsWritten(name: string): (l: Lookup)
    ensures l.Own? <==> name in Names
    ensures l.Inherited? <==> name in PrototypeNames
    ensures l.Own? ==> l.handler == CommandTable()[name]
  {
    if name in CommandTable() then Own(CommandTable()[name])
    else if name in PrototypeNames then Inherited(name)
    else Undefined
  }

  /** The lookup restricted to the table's own names. */
  function LookupOwn(name: string): (h: Option<Handler>)
    ensures h.Some? <==> name in Names
    ensures h.Some? ==> h.value == CommandTable()[name]
  {
    if name in CommandTable() then Some(CommandTable()[name]) else None
  }
}
