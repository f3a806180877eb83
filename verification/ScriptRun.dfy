/**
  A script from its lines to its steps: parsed, checked, unrolled
  (src/platform/linux/libcanhub/canhub_script.c).
 */
module ScriptRun {
  import opened Frames
  import opened ScriptTree
  import opened ScriptGenerator
  import opened GeneratorEngine
  import ParserEngine

  datatype Outcome =
    | Unaccepted
    | Illegal(parsed: ParserEngine.Parsed)
    | Ran(parsed: ParserEngine.Parsed, steps: seq<Event>, how: Generated)

  predicate LoopsAreLegal(script: Script) {
    forall i | 0 <= i < |script| :: script[i].For? ==> IsIterable(script[i].over)
  }

  /** What becomes of the lines of a script. */
  ghost predicate IsRunOf(r: Outcome, lines: seq<ParserEngine.Line>, marks: seq<ParserEngine.Mark>, files: Files, failed: bool) {
    match r
    case Unaccepted => !ParserEngine.IsAccepted(lines)
    case Illegal(parsed) => ParserEngine.IsParseOf(parsed, marks, lines) && !LoopsAreLegal(parsed.script)
    case Ran(parsed, steps, how) =>
      && ParserEngine.IsParseOf(parsed, marks, lines) && IsScript(parsed.script)
      && var all := Steps(Trace(parsed.script, files, [], parsed.first));
        if failed then how == Failed(Unreadable) && steps <= all else how == End && steps == all
  }

  /**
    The steps of every accepted script are those of its tree with the loops unrolled, in
    order; the loops never nest too deep, so only a file that cannot be read stops it early.
   */
  method Run(lines: seq<ParserEngine.Line>, port: FilePort) returns (r: Outcome, ghost marks: seq<ParserEngine.Mark>)
    modifies port
    ensures IsRunOf(r, lines, marks, port.files, port.failures > old(port.failures))
  {
    var parsed;
    parsed, marks := ParserEngine.Parse(lines);
    if parsed.None? {
      return Unaccepted, marks;
    }
    var p := parsed.value;
    if !LoopsAreLegal(p.script) {
      return Illegal(p), marks;
    }
    var generator := new Generator(p.script, port, p.first, ParserEngine.Levels(marks));
    var steps, how := generator.All();
    r := Ran(p, steps, how);
  }
}
