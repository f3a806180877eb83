/**
  The step generator as it runs (src/client/txn_script/script_generator.c):
  files read in pieces, frames pushed, advanced and popped in place.
 */
module GeneratorEngine {
  import opened Frames
  import opened ScriptTree
  import opened ScriptGenerator

  /** What a read of `size` bytes at `offset` gives when the file is read to the end of either. */
  function Slice(content: seq<u8>, offset: nat, size: nat): seq<u8> {
    if offset >= |content| then [] else content[offset..Min(offset + size, |content|)]
  }

  function Content(files: Files, name: string): seq<u8> {
    if name in files then files[name] else []
  }

  /** Where files are read. */
  class FilePort {
    const files: Files

    /** How many reads failed. */
    ghost var failures: nat

    constructor (files: Files)
      ensures this.files == files && failures == 0
    {
      this.files := files;
      failures := 0;
    }

    /** One read: it may fail, and it may bring less than was asked for, but never nothing before the end. */
    method ReadPiece(name: string, offset: nat, size: nat) returns (ok: bool, piece: seq<u8>)
      modifies this
      ensures failures == old(failures) + if ok then 0 else 1
      ensures ok ==> |piece| <= size && piece == Slice(Content(files, name), offset, |piece|)
      ensures ok ==> (piece == [] <==> size == 0 || offset >= |Content(files, name)|)
    {
      var content := Content(files, name);
      var more: nat;
      ok, more := *, *;
      if !ok {
        failures := failures + 1;
      }
      if size == 0 || offset >= |content| {
        piece := [];
      } else {
        piece := content[offset..Min(offset + 1 + more, Min(offset + size, |content|))];
      }
    }

    /** Reading in pieces, however short they come, gives the whole slice, unless one read fails. */
    method ReadFile(name: string, offset: nat, size: nat) returns (ok: bool, data: seq<u8>)
      modifies this
      ensures failures == old(failures) + if ok then 0 else 1
      ensures ok ==> data == Slice(Content(files, name), offset, size)
    {
      data := [];
      while |data| < size
        invariant failures == old(failures)
        invariant |data| <= size && data == Slice(Content(files, name), offset, |data|)
        invariant data != [] ==> offset + |data| <= |Content(files, name)|
        decreases size - |data|
      {
        var piece;
        ok, piece := ReadPiece(name, offset + |data|, size - |data|);
        if !ok || piece == [] {
          return;
        }
        data := data + piece;
      }
      ok := true;
    }
  }

  lemma Padded(data: seq<u8>, size: nat, pad: Option<u8>, offset: nat)
    ensures var c := Slice(data, offset, size);
      ChunkAt(data, size, pad, offset)
      == if 0 < |c| < size && pad.Some? then c + Padding(pad, size - |c|) else c
  {
  }

  datatype Entry = Entered | Skipped | TooDeep | Unreadable

  datatype Generated = StepAt(index: nat, env: seq<Binding>) | End | Failed(why: Entry)

  /** Every open loop stands in as many loops as are open around it. */
  ghost predicate OpenAt(levels: seq<nat>, frames: seq<GeneratorFrame>) {
    frames != [] ==>
      && AtLevel(levels, frames[|frames| - 1].statement, |frames| - 1)
      && OpenAt(levels, frames[..|frames| - 1])
  }

  lemma OpenWith(levels: seq<nat>, frames: seq<GeneratorFrame>, f: GeneratorFrame)
    ensures OpenAt(levels, frames + [f]) <==> AtLevel(levels, f.statement, |frames|) && OpenAt(levels, frames)
  {
    assert (frames + [f])[..|frames|] == frames;
  }

  class Generator {
    const script: Script
    const port: FilePort
    const files: Files
    ghost const levels: seq<nat>
    var rootCursor: nat
    var frames: seq<GeneratorFrame>
    var bindings: seq<Binding>

    ghost predicate Standing()
      reads this
    {
      && port.files == files && IsScript(script) && IsCursor(script, rootCursor)
      && StackOk(script, files, frames) && |frames| <= BINDINGS_MAX
    }

    ghost predicate Valid()
      reads this
    {
      Standing() && bindings == Env(script, frames)
    }

    /** The cursor stands in as many loops as are open. */
    ghost predicate IsLeveled() {
      |levels| == |script| && Leveled(script, levels, |script|)
    }

    ghost predicate InLevels()
      reads this
    {
      IsLeveled() && OpenAt(levels, frames) && AtLevel(levels, Cursor(), |frames|)
    }

    function Cursor(): nat
      reads this
    {
      if frames == [] then rootCursor else frames[|frames| - 1].cursor
    }

    /** All that is still to happen. */
    ghost function Left(): seq<Event>
      requires Valid()
      reads this
    {
      Rest(script, files, frames, Cursor())
    }

    constructor (script: Script, port: FilePort, first: nat, ghost levels: seq<nat>)
      requires IsScript(script) && IsCursor(script, first)
      ensures Valid() && this.script == script && this.port == port && files == port.files
      ensures |levels| == |script| && Leveled(script, levels, |script|) && AtLevel(levels, first, 0) ==> InLevels()
      ensures Left() == Trace(script, port.files, [], first)
    {
      this.script := script;
      this.port, this.files := port, port.files;
      this.levels := levels;
      rootCursor := first;
      frames := [];
      bindings := [];
    }

    method RebuildBindings()
      requires AreLoops(script, frames)
      modifies `bindings
      ensures bindings == Env(script, frames)
    {
      bindings := [];
      for i := 0 to |frames|
        invariant bindings == Env(script, frames[..i])
      {
        assert frames[..i + 1][..i] == frames[..i];
        bindings := bindings + [BindingOf(script, frames[i])];
      }
      assert frames[..|frames|] == frames;
    }

    /** Reads a chunk of a loop at an offset of its source, an outer chunk or a file, and pads a short one. */
    method LoadChunk(s: Statement, offset: nat) returns (ok: bool, chunk: seq<u8>)
      requires s.For? && s.over.Chunks? && port.files == files
      modifies port
      ensures port.failures == old(port.failures) + if ok then 0 else 1
      ensures ok ==> chunk == ChunkAt(SourceOf(files, bindings, s.over.source), s.over.size, s.over.pad, offset)
    {
      var size := s.over.size;
      ok, chunk := true, [];
      var parent := LookUp(bindings, s.over.source);
      if parent.Some? && parent.value.Chunk? {
        var data := parent.value.data;
        if offset < |data| {
          chunk := data[offset..offset + Min(|data| - offset, size)];
        }
      } else {
        ok, chunk := port.ReadFile(s.over.source, offset, size);
      }
      Padded(SourceOf(files, bindings, s.over.source), size, s.over.pad, offset);
      if ok && 0 < |chunk| < size && s.over.pad.Some? {
        chunk := chunk + Padding(s.over.pad, size - |chunk|);
      }
    }

    /** Moves the innermost cursor. */
    method MoveTo(cursor: nat)
      requires Valid() && IsCursor(script, cursor)
      modifies `rootCursor, `frames
      ensures Valid() && Env(script, frames) == old(Env(script, frames)) && |frames| == old(|frames|)
      ensures Left() == old(Rest(script, files, frames, cursor))
      ensures Cursor() == cursor && (OpenAt(levels, frames) <==> old(OpenAt(levels, frames)))
    {
      if frames == [] {
        rootCursor := cursor;
      } else {
        ghost var before := frames;
        MoveTop(cursor);
        TopMoved(script, files, levels, before, cursor);
      }
    }

    method MoveTop(cursor: nat)
      requires frames != []
      modifies `frames
      ensures frames == WithTopAt(old(frames), cursor)
    {
      frames := frames[|frames| - 1 := frames[|frames| - 1].(cursor := cursor)];
    }

    /** Pushes a frame that stands at the first of its items. */
    method Push(f: GeneratorFrame)
      requires Standing() && |frames| < BINDINGS_MAX
      requires FrameOk(script, files, Env(script, frames), f) && f.cursor == script[f.statement].child
      modifies `frames, `bindings
      ensures Valid()
      ensures Left() == old(AfterTurn(script, files, frames, f.statement, ItemsFrom(script, files, Env(script, frames), f)))
      ensures |frames| == old(|frames|) + 1 && Cursor() == f.cursor
      ensures OpenAt(levels, frames) <==> AtLevel(levels, f.statement, old(|frames|)) && old(OpenAt(levels, frames))
    {
      Pushed(script, files, frames, f);
      LoopStanding(script, files, frames, f);
      OpenWith(levels, frames, f);
      frames := frames + [f];
      RebuildBindings();
    }

    /** Goes on behind a loop whose frame has been popped. */
    method Leave(index: nat)
      requires Standing() && index < |script| && script[index].For?
      modifies `rootCursor, `frames, `bindings
      ensures Valid() && Left() == old(AfterTurn(script, files, frames, index, []))
      ensures |frames| == old(|frames|) && Cursor() == script[index].next
      ensures OpenAt(levels, frames) <==> old(OpenAt(levels, frames))
    {
      RebuildBindings();
      NoTurnsLeft(script, files, frames, index);
      MoveTo(script[index].next);
    }

    /** Opens a loop at its first item; a loop over nothing is skipped. */
    method EnterFor(index: nat) returns (r: Entry)
      requires Valid() && index < |script| && script[index].For?
      modifies `frames, `bindings, port
      ensures port.failures == old(port.failures) + if r.Unreadable? then 1 else 0
      ensures r == TooDeep <==> old(|frames|) == BINDINGS_MAX
      ensures r.Entered? ==> Valid()
      ensures r.Entered? ==>
        Left() == old(AfterTurn(script, files, frames, index, Items(files, Env(script, frames), script[index])))
      ensures !r.Entered? ==> frames == old(frames) && bindings == old(bindings)
      ensures r.Entered? ==>
        && |frames| == old(|frames|) + 1 && Cursor() == script[index].child
        && (OpenAt(levels, frames) <==> AtLevel(levels, index, old(|frames|)) && old(OpenAt(levels, frames)))
      ensures r.Skipped? ==> Items(files, Env(script, frames), script[index]) == []
    {
      if |frames| == BINDINGS_MAX {
        return TooDeep;
      }
      var s := script[index];
      match s.over
      case List(ranges) =>
        assert ranges[0] in ranges;
        Push(GeneratorFrame(index, s.child, 0, ranges[0].first, 0, []));
        return Entered;
      case Chunks(_, _, _) =>
        var ok, chunk := LoadChunk(s, Offset(0, s.over.size));
        if !ok {
          return Unreadable;
        }
        FirstChunk(files, bindings, s);
        if chunk == [] {
          return Skipped;
        }
        Push(GeneratorFrame(index, s.child, 0, 0, 0, chunk));
        return Entered;
    }

    /** The innermost frame moved to the next item of its loop, if there is one. */
    method NextItem() returns (ok: bool, more: bool, g: GeneratorFrame)
      requires Valid() && frames != []
      modifies `frames, port
      ensures port.failures == old(port.failures) + if ok then 0 else 1
      ensures |frames| == old(|frames|) && frames[..|frames| - 1] == old(frames[..|frames| - 1])
      ensures ok ==>
        var f, env := old(frames[|frames| - 1]), Env(script, old(frames[..|frames| - 1]));
        var rest := ItemsFrom(script, files, env, f)[1..];
        && (more <==> rest != [])
        && (more ==> FrameOk(script, files, env, g) && ItemsFrom(script, files, env, g) == rest)
        && g.statement == f.statement && g.cursor == script[f.statement].child
    {
      var f, outer := frames[|frames| - 1], frames[..|frames| - 1];
      var s := script[f.statement];
      ghost var env := Env(script, outer);
      ok, more, g := true, true, f.(cursor := s.child);
      match s.over {
        case List(ranges) =>
          ValuesAfter(script, files, env, f);
          if f.value < ranges[f.range].last {
            g := g.(value := f.value + 1);
          } else if f.range + 1 < |ranges| {
            assert ranges[f.range + 1] in ranges;
            g := g.(range := f.range + 1, value := ranges[f.range + 1].first);
          } else {
            more := false;
          }
        case Chunks(_, size, _) =>
          ChunksAfter(script, files, env, f);
          g := g.(chunkIndex := f.chunkIndex + 1);
          frames := outer + [f.(chunkIndex := g.chunkIndex)];
          var chunk;
          ok, chunk := LoadChunk(s, Offset(g.chunkIndex, size));
          if ok {
            NextChunk(files, env, s, BindingOf(script, f), g.chunkIndex);
            g, more := g.(chunk := chunk), chunk != [];
          }
      }
    }

    /** Goes on with a popped frame at its next item, or behind its loop. */
    method Resume(more: bool, g: GeneratorFrame)
      requires Standing() && |frames| < BINDINGS_MAX
      requires g.statement < |script| && script[g.statement].For? && g.cursor == script[g.statement].child
      requires more ==> FrameOk(script, files, Env(script, frames), g)
      modifies `rootCursor, `frames, `bindings
      ensures Valid()
      ensures Left() == old(AfterTurn(script, files, frames, g.statement,
        if more then ItemsFrom(script, files, Env(script, frames), g) else []))
      ensures IsLeveled() && old(OpenAt(levels, frames) && AtLevel(levels, g.statement, |frames|)) ==> InLevels()
    {
      if IsLeveled() {
        LeveledAt(script, levels, |script|, g.statement);
      }
      if more {
        Push(g);
      } else {
        Leave(g.statement);
      }
    }

    /** Ends a turn of the innermost loop: the next item, or out of the loop and past it. */
    method AdvanceFrame() returns (ok: bool)
      requires Valid() && frames != [] && Cursor() == NO_INDEX
      modifies this, port
      ensures port.failures == old(port.failures) + if ok then 0 else 1
      ensures ok ==> Valid()
      ensures ok ==> old(Left()) == [old(Turn(frames[|frames| - 1].statement))] + Left()
      ensures ok && old(InLevels()) ==> InLevels()
    {
      var f, outer := frames[|frames| - 1], frames[..|frames| - 1];
      assert frames == outer + [f];
      TurnLeaves(script, files, outer, f);
      OpenWith(levels, outer, f);
      var more, g;
      ok, more, g := NextItem();
      if !ok {
        return;
      }
      frames := outer;
      Resume(more, g);
    }

    /** Goes into the loop the cursor stands at, or past it when it has no turns. */
    method PassFor() returns (r: Entry)
      requires Valid() && Cursor() < |script| && script[Cursor()].For?
      modifies this, port
      ensures port.failures == old(port.failures) + if r.Unreadable? then 1 else 0
      ensures r == TooDeep <==> old(|frames|) == BINDINGS_MAX
      ensures r.Entered? || r.Skipped? ==> Valid()
      ensures r.Entered? || r.Skipped? ==> old(Left()) == [Enter(old(Cursor()))] + Left()
      ensures old(InLevels()) ==> !r.TooDeep? && (r.Unreadable? || InLevels())
    {
      var cursor := Cursor();
      if InLevels() {
        LeveledAt(script, levels, |script|, cursor);
      }
      LoopLeaves(script, files, frames, cursor);
      r := EnterFor(cursor);
      if r.Skipped? {
        NoTurnsLeft(script, files, frames, cursor);
        MoveTo(script[cursor].next);
      }
    }

    /** Takes the step the cursor stands at. */
    method TakeStep() returns (r: Generated)
      requires Valid() && Cursor() < |script| && script[Cursor()].Step?
      modifies this
      ensures r == StepAt(old(Cursor()), bindings)
      ensures Valid() && old(Left()) == [Visit(r.index, r.env)] + Left()
      ensures old(InLevels()) ==> InLevels()
    {
      var cursor := Cursor();
      StepLeaves(script, files, frames, cursor);
      MoveTo(script[cursor].next);
      if old(InLevels()) {
        LeveledAt(script, levels, |script|, cursor);
      }
      return StepAt(cursor, bindings);
    }

    /** Goes on at the end of a block or at a loop, where no step stands. */
    method Turnover() returns (r: Entry)
      requires Valid() && if Cursor() == NO_INDEX then frames != [] else script[Cursor()].For?
      modifies this, port
      ensures port.failures == old(port.failures) + if r == Unreadable then 1 else 0
      ensures r.Entered? || r.Skipped? ==> Valid() && Steps(Left()) == old(Steps(Left())) && |Left()| < old(|Left()|)
      ensures old(InLevels()) ==> r != TooDeep && (r == Unreadable || InLevels())
    {
      ghost var left := Left();
      if Cursor() == NO_INDEX {
        var ok := AdvanceFrame();
        r := if ok then Entered else Unreadable;
      } else {
        r := PassFor();
      }
      if r.Entered? || r.Skipped? {
        NoStepIn(left[0], Left());
      }
    }

    /**
      The next step of the script, with what its variables stand for. On a script whose
      loops nest within the limit the only failure is a file that cannot be read.
     */
    method Next() returns (r: Generated)
      requires Valid()
      modifies this, port
      ensures port.failures == old(port.failures) + if r == Failed(Unreadable) then 1 else 0
      ensures r.StepAt? ==> Valid() && Steps(old(Left())) == [Visit(r.index, r.env)] + Steps(Left())
      ensures r.StepAt? ==> r.index < |script| && script[r.index].Step? && |Left()| < |old(Left())|
      ensures r.End? ==> Valid() && Steps(old(Left())) == [] && Left() == []
      ensures old(InLevels()) ==> r != Failed(TooDeep) && (r.Failed? || InLevels())
      ensures r.Failed? ==> r.why.TooDeep? || r.why.Unreadable?
    {
      while true
        invariant Valid() && Steps(Left()) == old(Steps(Left())) && |Left()| <= |old(Left())|
        invariant port.failures == old(port.failures)
        invariant old(InLevels()) ==> InLevels()
        decreases |Left()|
      {
        var cursor := Cursor();
        if cursor == NO_INDEX && frames == [] {
          assert AfterBlock(script, files, frames) == [];
          return End;
        } else if cursor == NO_INDEX || script[cursor].For? {
          var entry := Turnover();
          if entry.TooDeep? || entry.Unreadable? {
            return Failed(entry);
          }
        } else {
          ghost var left := Left();
          r := TakeStep();
          NoStepIn(left[0], Left());
          return;
        }
      }
    }

    /** All steps, in order, up to the end of the script or to the first failure. */
    method All() returns (steps: seq<Event>, r: Generated)
      requires Valid()
      modifies this, port
      ensures port.failures == old(port.failures) + if r == Failed(Unreadable) then 1 else 0
      ensures r.End? || r == Failed(TooDeep) || r == Failed(Unreadable)
      ensures r.End? ==> steps == Steps(old(Left()))
      ensures r.Failed? ==> steps <= Steps(old(Left()))
      ensures old(InLevels()) ==> r != Failed(TooDeep)
    {
      steps := [];
      ghost var all := Steps(Left());
      while true
        invariant Valid() && all == steps + Steps(Left()) && port.failures == old(port.failures)
        invariant old(InLevels()) ==> InLevels()
        decreases |Left()|
      {
        r := Next();
        if !r.StepAt? {
          return;
        }
        Regrouped(steps, Visit(r.index, r.env), Steps(Left()));
        steps := steps + [Visit(r.index, r.env)];
      }
    }
  }

  lemma Regrouped(a: seq<Event>, e: Event, b: seq<Event>)
    ensures a + ([e] + b) == (a + [e]) + b
  {
  }

  /** The stack with its innermost cursor moved. */
  function WithTopAt(frames: seq<GeneratorFrame>, cursor: nat): seq<GeneratorFrame>
    requires frames != []
  {
    frames[|frames| - 1 := frames[|frames| - 1].(cursor := cursor)]
  }

  lemma TopMoved(script: Script, files: Files, levels: seq<nat>, frames: seq<GeneratorFrame>, cursor: nat)
    requires IsScript(script) && StackOk(script, files, frames) && IsCursor(script, cursor) && frames != []
    ensures var moved := WithTopAt(frames, cursor);
      && StackOk(script, files, moved) && Env(script, moved) == Env(script, frames)
      && Rest(script, files, moved, cursor) == Rest(script, files, frames, cursor)
      && (OpenAt(levels, moved) <==> OpenAt(levels, frames))
  {
    var outer, f := frames[..|frames| - 1], frames[|frames| - 1];
    assert frames == outer + [f] && WithTopAt(frames, cursor) == outer + [f.(cursor := cursor)];
    CursorMoved(script, files, outer, f, cursor);
    OpenWith(levels, outer, f);
    OpenWith(levels, outer, f.(cursor := cursor));
  }

  lemma CursorMoved(script: Script, files: Files, outer: seq<GeneratorFrame>, f: GeneratorFrame, cursor: nat)
    requires IsScript(script) && StackOk(script, files, outer + [f]) && IsCursor(script, cursor)
    ensures StackOk(script, files, outer + [f.(cursor := cursor)])
    ensures Env(script, outer + [f.(cursor := cursor)]) == Env(script, outer + [f])
    ensures Rest(script, files, outer + [f.(cursor := cursor)], cursor) == Rest(script, files, outer + [f], cursor)
  {
    var g := f.(cursor := cursor);
    assert (outer + [f])[..|outer|] == outer && (outer + [g])[..|outer|] == outer;
    assert FrameOk(script, files, Env(script, outer), f);
    assert FrameOk(script, files, Env(script, outer), g);
    RestOfPushed(script, files, outer, f, cursor);
    RestOfPushed(script, files, outer, g, cursor);
  }
}
