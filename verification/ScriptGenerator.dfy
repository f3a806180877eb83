/**
  The step generator (src/client/txn_script/script_generator.c): an explicit
  stack of loop frames that produces, one at a time, the steps of a script with
  its loops unrolled.
 */
module ScriptGenerator {
  import opened Frames
  import opened ScriptTree

  type Files = map<string, seq<u8>>

  // ---------- the recursive unrolling ----------

  /** The innermost binding of a name. */
  function LookUp(env: seq<Binding>, name: string): Option<Binding> {
    if env == [] then None
    else if env[|env| - 1].name == name then Some(env[|env| - 1])
    else LookUp(env[..|env| - 1], name)
  }

  /** The bytes a chunk loop cuts: an outer chunk, or a file. */
  function SourceOf(files: Files, env: seq<Binding>, name: string): seq<u8> {
    match LookUp(env, name)
    case Some(Chunk(_, data)) => data
    case _ => if name in files then files[name] else []
  }

  function Named(name: string, values: seq<u32>): seq<Binding> {
    seq(|values|, i requires 0 <= i < |values| => Value(name, values[i]))
  }

  function NamedChunks(name: string, chunks: seq<seq<u8>>): seq<Binding> {
    seq(|chunks|, i requires 0 <= i < |chunks| => Chunk(name, chunks[i]))
  }

  /** Where the k-th chunk starts. */
  function Offset(k: nat, size: nat): nat {
    k * size
  }

  /**
    The chunks of a loop from the k-th on. A loop whose variable has the name of
    its source hides the source from itself after the first chunk.
   */
  function LoopChunks(data: seq<u8>, s: Statement, k: nat): seq<seq<u8>>
    requires s.For? && s.over.Chunks? && s.over.size > 0
  {
    if s.variable != s.over.source then ChunksFrom(data, s.over.size, s.over.pad, Offset(k, s.over.size))
    else if k > 0 || data == [] then []
    else [ChunkAt(data, s.over.size, s.over.pad, 0)]
  }

  /** A chunk loop goes through its whole source exactly when the variable is not its source's name or one chunk is enough. */
  lemma LoopIsWhole(data: seq<u8>, s: Statement)
    requires s.For? && s.over.Chunks? && s.over.size > 0
    ensures LoopChunks(data, s, 0) == ChunksFrom(data, s.over.size, s.over.pad, 0) <==>
      s.variable != s.over.source || |data| <= s.over.size
  {
    var size, pad := s.over.size, s.over.pad;
    if s.variable == s.over.source && |data| > size {
      assert |ChunksFrom(data, size, pad, 0)| == 1 + |ChunksFrom(data, size, pad, size)|;
      assert |ChunksFrom(data, size, pad, size)| >= 1;
    }
  }

  /** What the loop variable stands for, turn by turn. */
  function Items(files: Files, env: seq<Binding>, s: Statement): seq<Binding>
    requires s.For? && IsIterable(s.over)
  {
    match s.over
    case List(ranges) =>
      assert ranges[0] in ranges;
      Named(s.variable, ValuesFrom(ranges, 0, ranges[0].first))
    case Chunks(source, _, _) => NamedChunks(s.variable, LoopChunks(SourceOf(files, env, source), s, 0))
  }

  /** A step reached under bindings, a loop entered, a turn of a loop ended. */
  datatype Event = Visit(index: nat, env: seq<Binding>) | Enter(index: nat) | Turn(index: nat)

  function Rank(script: Script, i: nat): nat {
    if i < |script| then |script| - i else 0
  }

  /** Everything that happens from statement `i` to the end of its block, loops unrolled. */
  function Trace(script: Script, files: Files, env: seq<Binding>, i: nat): seq<Event>
    requires IsScript(script)
    decreases Rank(script, i), 1, 0
  {
    if i >= |script| then []
    else
      match script[i]
      case Step(_, next) => [Visit(i, env)] + Trace(script, files, env, next)
      case For(_, _, _, _, next) =>
        [Enter(i)] + Turns(script, files, env, i, Items(files, env, script[i])) + Trace(script, files, env, next)
  }

  /** The turns of loop `i`, one for each item. */
  function Turns(script: Script, files: Files, env: seq<Binding>, i: nat, items: seq<Binding>): seq<Event>
    requires IsScript(script) && i < |script| && script[i].For?
    decreases Rank(script, i), 0, |items|
  {
    if items == [] then []
    else
      Trace(script, files, env + [items[0]], script[i].child) + [Turn(i)] + Turns(script, files, env, i, items[1..])
  }

  /** The steps among what happens. */
  function Steps(events: seq<Event>): seq<Event> {
    if events == [] then []
    else (if events[0].Visit? then [events[0]] else []) + Steps(events[1..])
  }

  // ---------- the stack ----------

  datatype GeneratorFrame = GeneratorFrame(
    statement: nat, cursor: nat, range: nat, value: nat, chunkIndex: nat, chunk: seq<u8>)

  function BindingOf(script: Script, f: GeneratorFrame): Binding
    requires f.statement < |script| && script[f.statement].For? && f.value < WORD
  {
    var s := script[f.statement];
    if s.over.List? then Value(s.variable, f.value) else Chunk(s.variable, f.chunk)
  }

  predicate FrameIsLoop(script: Script, f: GeneratorFrame) {
    && f.statement < |script| && script[f.statement].For? && f.value < WORD
    && IsCursor(script, f.cursor)
  }

  predicate IsCursor(script: Script, i: nat) {
    i == NO_INDEX || i < |script|
  }

  predicate AreLoops(script: Script, frames: seq<GeneratorFrame>) {
    forall k | 0 <= k < |frames| :: FrameIsLoop(script, frames[k])
  }

  function Env(script: Script, frames: seq<GeneratorFrame>): (env: seq<Binding>)
    requires AreLoops(script, frames)
    ensures |env| == |frames|
  {
    if frames == [] then []
    else Env(script, frames[..|frames| - 1]) + [BindingOf(script, frames[|frames| - 1])]
  }

  /** The items of a frame's loop from its current one on. */
  function ItemsFrom(script: Script, files: Files, env: seq<Binding>, f: GeneratorFrame): seq<Binding>
    requires IsScript(script) && FrameIsLoop(script, f)
  {
    var s := script[f.statement];
    match s.over
    case List(ranges) =>
      if f.range < |ranges| && f.value <= ranges[f.range].last
      then Named(s.variable, ValuesFrom(ranges, f.range, f.value)) else []
    case Chunks(source, _, _) => NamedChunks(s.variable, LoopChunks(SourceOf(files, env, source), s, f.chunkIndex))
  }

  /** The frame stands at the first of the items it has left. */
  predicate FrameOk(script: Script, files: Files, env: seq<Binding>, f: GeneratorFrame)
    requires IsScript(script)
  {
    && FrameIsLoop(script, f)
    && var items := ItemsFrom(script, files, env, f);
      items != [] && items[0] == BindingOf(script, f)
  }

  predicate StackOk(script: Script, files: Files, frames: seq<GeneratorFrame>)
    requires IsScript(script)
  {
    && AreLoops(script, frames)
    && (frames != [] ==>
        var outer := frames[..|frames| - 1];
        StackOk(script, files, outer) && FrameOk(script, files, Env(script, outer), frames[|frames| - 1]))
  }

  /** All that is still to happen, when the innermost block stands at `cursor`. */
  function Rest(script: Script, files: Files, frames: seq<GeneratorFrame>, cursor: nat): seq<Event>
    requires IsScript(script) && StackOk(script, files, frames)
    decreases |frames|, 1
  {
    Trace(script, files, Env(script, frames), cursor) + AfterBlock(script, files, frames)
  }

  /** All that is still to happen once the innermost block has come to its end. */
  function AfterBlock(script: Script, files: Files, frames: seq<GeneratorFrame>): seq<Event>
    requires IsScript(script) && StackOk(script, files, frames)
    decreases |frames|, 0
  {
    if frames == [] then []
    else
      var outer, f := frames[..|frames| - 1], frames[|frames| - 1];
      var env := Env(script, outer);
      [Turn(f.statement)]
      + Turns(script, files, env, f.statement, ItemsFrom(script, files, env, f)[1..])
      + Rest(script, files, outer, script[f.statement].next)
  }

  // ---------- what each turn of the loop in Next leaves ----------

  lemma Pushed(script: Script, files: Files, frames: seq<GeneratorFrame>, f: GeneratorFrame)
    requires IsScript(script) && StackOk(script, files, frames) && FrameOk(script, files, Env(script, frames), f)
    ensures StackOk(script, files, frames + [f])
    ensures Env(script, frames + [f]) == Env(script, frames) + [BindingOf(script, f)]
  {
    assert (frames + [f])[..|frames|] == frames;
  }

  /** What is still to happen after the current turn of loop `f` within `frames`. */
  function AfterTurn(script: Script, files: Files, frames: seq<GeneratorFrame>, i: nat, items: seq<Binding>): seq<Event>
    requires IsScript(script) && StackOk(script, files, frames) && i < |script| && script[i].For?
  {
    Turns(script, files, Env(script, frames), i, items) + Rest(script, files, frames, script[i].next)
  }

  lemma AfterBlockPushed(script: Script, files: Files, frames: seq<GeneratorFrame>, f: GeneratorFrame)
    requires IsScript(script) && StackOk(script, files, frames) && FrameOk(script, files, Env(script, frames), f)
    requires StackOk(script, files, frames + [f])
    ensures AfterBlock(script, files, frames + [f])
         == [Turn(f.statement)]
            + AfterTurn(script, files, frames, f.statement, ItemsFrom(script, files, Env(script, frames), f)[1..])
  {
    assert (frames + [f])[..|frames|] == frames;
    var env := Env(script, frames);
    Grouped([Turn(f.statement)], Turns(script, files, env, f.statement, ItemsFrom(script, files, env, f)[1..]),
            Rest(script, files, frames, script[f.statement].next));
  }

  lemma Grouped(a: seq<Event>, b: seq<Event>, c: seq<Event>)
    ensures a + b + c == a + (b + c)
  {
  }

  lemma RestOfPushed(script: Script, files: Files, frames: seq<GeneratorFrame>, f: GeneratorFrame, cursor: nat)
    requires IsScript(script) && StackOk(script, files, frames) && FrameOk(script, files, Env(script, frames), f)
    requires StackOk(script, files, frames + [f])
    ensures var env := Env(script, frames);
      Rest(script, files, frames + [f], cursor)
      == Trace(script, files, env + [BindingOf(script, f)], cursor)
         + ([Turn(f.statement)] + AfterTurn(script, files, frames, f.statement, ItemsFrom(script, files, env, f)[1..]))
  {
    Pushed(script, files, frames, f);
    AfterBlockPushed(script, files, frames, f);
  }

  /** A loop at the first of `items` will do what its turns over `items` do, then go on after it. */
  lemma LoopStanding(script: Script, files: Files, frames: seq<GeneratorFrame>, f: GeneratorFrame)
    requires IsScript(script) && StackOk(script, files, frames) && FrameOk(script, files, Env(script, frames), f)
    requires StackOk(script, files, frames + [f]) && f.cursor == script[f.statement].child
    ensures Rest(script, files, frames + [f], f.cursor)
         == AfterTurn(script, files, frames, f.statement, ItemsFrom(script, files, Env(script, frames), f))
  {
    RestOfPushed(script, files, frames, f, f.cursor);
    var env := Env(script, frames);
    var items := ItemsFrom(script, files, env, f);
    var body := Trace(script, files, env + [items[0]], f.cursor);
    Joined(body, [Turn(f.statement)], Turns(script, files, env, f.statement, items[1..]),
           Rest(script, files, frames, script[f.statement].next));
  }

  lemma Joined(a: seq<Event>, b: seq<Event>, c: seq<Event>, d: seq<Event>)
    ensures a + (b + (c + d)) == (a + b + c) + d
  {
  }

  lemma StepLeaves(script: Script, files: Files, frames: seq<GeneratorFrame>, cursor: nat)
    requires IsScript(script) && StackOk(script, files, frames) && cursor < |script| && script[cursor].Step?
    ensures Rest(script, files, frames, cursor)
         == [Visit(cursor, Env(script, frames))] + Rest(script, files, frames, script[cursor].next)
  {
  }

  lemma LoopLeaves(script: Script, files: Files, frames: seq<GeneratorFrame>, cursor: nat)
    requires IsScript(script) && StackOk(script, files, frames) && cursor < |script| && script[cursor].For?
    ensures Rest(script, files, frames, cursor)
         == [Enter(cursor)] + AfterTurn(script, files, frames, cursor, Items(files, Env(script, frames), script[cursor]))
  {
    var env, next := Env(script, frames), script[cursor].next;
    Joined([Enter(cursor)], Turns(script, files, env, cursor, Items(files, env, script[cursor])),
           Trace(script, files, env, next), AfterBlock(script, files, frames));
  }

  lemma TurnLeaves(script: Script, files: Files, frames: seq<GeneratorFrame>, f: GeneratorFrame)
    requires IsScript(script) && StackOk(script, files, frames) && FrameOk(script, files, Env(script, frames), f)
    requires StackOk(script, files, frames + [f])
    ensures Rest(script, files, frames + [f], NO_INDEX)
         == [Turn(f.statement)]
            + AfterTurn(script, files, frames, f.statement, ItemsFrom(script, files, Env(script, frames), f)[1..])
  {
    RestOfPushed(script, files, frames, f, NO_INDEX);
  }

  lemma NoTurnsLeft(script: Script, files: Files, frames: seq<GeneratorFrame>, i: nat)
    requires IsScript(script) && StackOk(script, files, frames) && i < |script| && script[i].For?
    ensures AfterTurn(script, files, frames, i, []) == Rest(script, files, frames, script[i].next)
  {
  }

  lemma NoStepIn(e: Event, rest: seq<Event>)
    ensures Steps([e] + rest) == (if e.Visit? then [e] else []) + Steps(rest)
  {
    assert ([e] + rest)[1..] == rest;
  }

  // ---------- the next item of a loop ----------

  /** The chunk the code reads: under the bindings in force, k chunks into the source. */
  function CodeChunk(files: Files, env: seq<Binding>, s: Statement, k: nat): seq<u8>
    requires s.For? && s.over.Chunks?
  {
    ChunkAt(SourceOf(files, env, s.over.source), s.over.size, s.over.pad, Offset(k, s.over.size))
  }

  lemma Hidden(files: Files, env: seq<Binding>, own: Binding, name: string)
    ensures own.name != name ==> SourceOf(files, env + [own], name) == SourceOf(files, env, name)
    ensures own.name == name && own.Chunk? ==> SourceOf(files, env + [own], name) == own.data
  {
    assert (env + [own])[..|env|] == env;
  }

  lemma ChunkCount(k: nat, size: nat)
    ensures Offset(k + 1, size) == Offset(k, size) + size && (k >= 1 ==> Offset(k, size) >= size)
  {
    if k >= 1 {
      assert k * size == (k - 1) * size + size;
    }
  }

  /** What the code reads for turn k >= 1 of a loop is the next of its chunks, or nothing when there is none. */
  lemma NextChunk(files: Files, env: seq<Binding>, s: Statement, own: Binding, k: nat)
    requires s.For? && s.over.Chunks? && s.over.size > 0 && k >= 1
    requires own.Chunk? && own.name == s.variable && |own.data| <= s.over.size
    ensures var c := CodeChunk(files, env + [own], s, k);
      var data := SourceOf(files, env, s.over.source);
      LoopChunks(data, s, k) == if c == [] then [] else [c] + LoopChunks(data, s, k + 1)
  {
    Hidden(files, env, own, s.over.source);
    ChunkCount(k, s.over.size);
  }

  lemma FirstChunk(files: Files, env: seq<Binding>, s: Statement)
    requires s.For? && s.over.Chunks? && s.over.size > 0
    ensures var c := CodeChunk(files, env, s, 0);
      var data := SourceOf(files, env, s.over.source);
      LoopChunks(data, s, 0) == if c == [] then [] else [c] + LoopChunks(data, s, 1)
  {
    ChunkCount(0, s.over.size);
  }

  /** The values of a loop after the current one. */
  lemma ValuesAfter(script: Script, files: Files, env: seq<Binding>, f: GeneratorFrame)
    requires IsScript(script) && FrameOk(script, files, env, f) && script[f.statement].over.List?
    ensures var ranges, rest := script[f.statement].over.ranges, ItemsFrom(script, files, env, f)[1..];
      && f.range < |ranges| && f.value <= ranges[f.range].last
      && rest ==
         if f.value < ranges[f.range].last then ItemsFrom(script, files, env, f.(value := f.value + 1))
         else if f.range + 1 < |ranges| then
           ItemsFrom(script, files, env, f.(range := f.range + 1, value := ranges[f.range + 1].first))
         else []
  {
    var s := script[f.statement];
    var ranges := s.over.ranges;
    var all := ValuesFrom(ranges, f.range, f.value);
    assert ItemsFrom(script, files, env, f)[1..] == Named(s.variable, all[1..]);
    if f.value == ranges[f.range].last && f.range + 1 < |ranges| {
      assert ranges[f.range + 1] in ranges;
    }
  }

  lemma LoopChunksTail(data: seq<u8>, s: Statement, k: nat)
    requires s.For? && s.over.Chunks? && s.over.size > 0 && LoopChunks(data, s, k) != []
    ensures LoopChunks(data, s, k)[1..] == LoopChunks(data, s, k + 1)
    ensures |LoopChunks(data, s, k)[0]| <= s.over.size
  {
    ChunkCount(k, s.over.size);
  }

  lemma NamedTail(name: string, chunks: seq<seq<u8>>)
    requires chunks != []
    ensures NamedChunks(name, chunks)[1..] == NamedChunks(name, chunks[1..])
  {
  }

  /** The chunks of a loop after the current one. */
  lemma ChunksAfter(script: Script, files: Files, env: seq<Binding>, f: GeneratorFrame)
    requires IsScript(script) && FrameOk(script, files, env, f) && script[f.statement].over.Chunks?
    ensures var s, rest := script[f.statement], ItemsFrom(script, files, env, f)[1..];
      && |f.chunk| <= s.over.size
      && rest == NamedChunks(s.variable, LoopChunks(SourceOf(files, env, s.over.source), s, f.chunkIndex + 1))
  {
    var s := script[f.statement];
    var data := SourceOf(files, env, s.over.source);
    LoopChunksTail(data, s, f.chunkIndex);
    NamedTail(s.variable, LoopChunks(data, s, f.chunkIndex));
  }
}
