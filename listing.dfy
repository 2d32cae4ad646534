/** The `ls`/`list` handler's output (aperture.js lines 166-173): the module
    records are mapped to their directories, in the order the listing
    provider returned them, and joined with newlines. */
module Listing {

  import opened Base

  const Newline: char := '\n'

  /** `modules.map(function(mod) { return mod.directory })`. */
  function Directories(modules: seq<ModuleRecord>): (dirs: seq<string>)
    ensures |dirs| == |modules|
    ensures forall i :: 0 <= i < |modules| ==> dirs[i] == modules[i].directory
  {
    if modules == [] then [] else [modules[0].directory] + Directories(modules[1..])
  }

  /** `parts.join(sep)`: the parts with one separator between neighbours;
      the empty list joins to the empty string. */
  function Join(parts: seq<string>, sep: char): string
  {
    if parts == [] then ""
    else if |parts| == 1 then parts[0]
    else parts[0] + [sep] + Join(parts[1..], sep)
  }

  /** `s.split(sep)`: the maximal pieces between separators; a string
      without a separator is one piece, so the result is never empty. */
  function Split(s: string, sep: char): (pieces: seq<string>)
    ensures |pieces| >= 1
  {
    if s == [] then [""]
    else if s[0] == sep then [""] + Split(s[1..], sep)
    else
      var tail := Split(s[1..], sep);
      [[s[0]] + tail[0]] + tail[1..]
  }

  /** The text the handler prints, given the listing result. */
  datatype ListOutcome = Throw(error: string) | Printed(text: string)

  /** The list callback: a listing error is thrown; otherwise the joined
      directories are printed. */
  function ListHandler(listing: Result<seq<ModuleRecord>>): (o: ListOutcome)
    ensures o.Throw? <==> listing.Failure?
    ensures o.Throw? ==> o.error == listing.error
    ensures listing.Success? && listing.value == [] ==> o == Printed("")
  {
    match listing
      case Failure(e) => Throw(e)
      case Success(modules) => Printed(Join(Directories(modules), Newline))
  }

  /** A string without the separator splits into itself alone. */
  lemma {:induction false} SplitWithoutSeparator(s: string, sep: char)
    requires sep !in s
    ensures Split(s, sep) == [s]
  {
    if s != [] {
      SplitWithoutSeparator(s[1..], sep);
      assert [s[0]] + s[1..] == s;
    }
  }

  /** Splitting a separator-free line followed by the separator yields that
      line, then the pieces of what follows. */
  lemma {:induction false} SplitAfterLine(line: string, sep: char, rest: string)
    requires sep !in line
    ensures Split(line + [sep] + rest, sep) == [line] + Split(rest, sep)
  {
    if line == [] {
      assert line + [sep] + rest == [sep] + rest;
      assert ([sep] + rest)[1..] == rest;
    } else {
      var s := line + [sep] + rest;
      SplitAfterLine(line[1..], sep, rest);
      assert s[1..] == line[1..] + [sep] + rest;
      assert [line[0]] + line[1..] == line;
    }
  }

  /** Join and split are inverse when no part contains the separator and
      there is at least one part. */
  lemma {:induction false} SplitJoin(parts: seq<string>, sep: char)
    requires |parts| >= 1
    requires forall i :: 0 <= i < |parts| ==> sep !in parts[i]
    ensures Split(Join(parts, sep), sep) == parts
  {
    if |parts| == 1 {
      SplitWithoutSeparator(parts[0], sep);
    } else {
      SplitJoin(parts[1..], sep);
      SplitAfterLine(parts[0], sep, Join(parts[1..], sep));
      assert [parts[0]] + parts[1..] == parts;
    }
  }

  /** The printed listing has one line per module, in the provider's order,
      each line being that module's directory, as long as there is at least
      one module and no directory contains a newline. */
  lemma ListPrintsOneLinePerModule(modules: seq<ModuleRecord>)
    requires |modules| >= 1
    requires forall i :: 0 <= i < |modules| ==> Newline !in modules[i].directory
    ensures ListHandler(Success(modules)).Printed?
    ensures var lines := Split(ListHandler(Success(modules)).text, Newline);
      |lines| == |modules| &&
      forall i :: 0 <= i < |modules| ==> lines[i] == modules[i].directory
  {
    SplitJoin(Directories(modules), Newline);
  }
}
