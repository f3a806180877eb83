/** A parsed transaction script: statements linked by index, and the loops over them. */
module ScriptTree {
  import opened Frames
  import opened ByteStrings

  const NO_INDEX := 0xFFFF
  const STATEMENTS_MAX := 256
  const BINDINGS_MAX := 8
  const CHUNK_SIZE_MAX := 4096

  datatype Range = Range(first: u32, last: u32)

  datatype Iterable = List(ranges: seq<Range>) | Chunks(source: string, size: nat, pad: Option<u8>)

  /** A send or expect line, or a for line; `next` and `child` are indices, NO_INDEX for none. */
  datatype Statement =
    | Step(line: nat, next: nat)
    | For(line: nat, variable: string, over: Iterable, child: nat, next: nat)

  type Script = seq<Statement>

  /** A link leads to a later statement. */
  predicate IsLink(from: int, to: nat, count: nat) {
    to == NO_INDEX || from < to < count
  }

  predicate IsIterable(x: Iterable) {
    match x
    case List(ranges) => ranges != [] && AreRanges(ranges)
    case Chunks(_, size, _) => 0 < size <= CHUNK_SIZE_MAX
  }

  /** All links lead forward. */
  predicate IsTree(s: Script) {
    && |s| <= STATEMENTS_MAX
    && forall i | 0 <= i < |s| :: IsLink(i, s[i].next, |s|) && (s[i].For? ==> IsLink(i, s[i].child, |s|))
  }

  predicate IsScript(s: Script) {
    IsTree(s) && forall i | 0 <= i < |s| :: s[i].For? ==> IsIterable(s[i].over)
  }

  predicate AtLevel(levels: seq<nat>, i: nat, level: nat) {
    i == NO_INDEX || (i < |levels| && levels[i] == level)
  }

  /** `levels` says how many loops stand around each of the first n statements, and none stands in BINDINGS_MAX loops. */
  predicate Leveled(script: Script, levels: seq<nat>, n: nat)
    requires n <= |script| == |levels|
  {
    n > 0 ==>
      && Leveled(script, levels, n - 1)
      && levels[n - 1] < BINDINGS_MAX
      && AtLevel(levels, script[n - 1].next, levels[n - 1])
      && (script[n - 1].For? ==> AtLevel(levels, script[n - 1].child, levels[n - 1] + 1))
  }

  lemma {:induction false} LeveledAt(script: Script, levels: seq<nat>, n: nat, i: nat)
    requires i < n <= |script| == |levels| && Leveled(script, levels, n)
    ensures levels[i] < BINDINGS_MAX && AtLevel(levels, script[i].next, levels[i])
    ensures script[i].For? ==> AtLevel(levels, script[i].child, levels[i] + 1)
  {
    if i < n - 1 {
      LeveledAt(script, levels, n - 1, i);
    }
  }

  /** What a loop variable stands for. */
  datatype Binding = Value(name: string, value: u32) | Chunk(name: string, data: seq<u8>)

  // ---------- lists ----------

  /** The values from `value` to the end of range `range`, then those of the ranges after it. */
  function ValuesFrom(ranges: seq<Range>, range: nat, value: nat): seq<u32>
    requires range < |ranges| && value <= ranges[range].last && AreRanges(ranges)
    decreases |ranges| - range, ranges[range].last - value
  {
    [value] +
    if value < ranges[range].last then ValuesFrom(ranges, range, value + 1)
    else if range + 1 < |ranges| then
      assert ranges[range + 1] in ranges;
      ValuesFrom(ranges, range + 1, ranges[range + 1].first)
    else []
  }

  predicate AreRanges(ranges: seq<Range>) {
    forall r | r in ranges :: r.first <= r.last
  }

  function Span(first: nat, last: u32): (s: seq<u32>)
    requires first <= last
    decreases last - first
  {
    [first] + if first < last then Span(first + 1, last) else []
  }

  /** All values of a list, in order. */
  function Values(ranges: seq<Range>): seq<u32>
    requires AreRanges(ranges)
  {
    if ranges == [] then [] else Span(ranges[0].first, ranges[0].last) + Values(ranges[1..])
  }

  lemma InFront(value: u32, a: seq<u32>, b: seq<u32>)
    ensures [value] + (a + b) == ([value] + a) + b
  {
  }

  lemma ValuesOfRest(ranges: seq<Range>, range: nat)
    requires range < |ranges| && AreRanges(ranges)
    ensures var r := ranges[range];
      r.first <= r.last && Values(ranges[range..]) == Span(r.first, r.last) + Values(ranges[range + 1..])
  {
    assert ranges[range] in ranges;
    assert ranges[range..][1..] == ranges[range + 1..];
  }

  /** The values of the ranges after `range`. */
  function LaterValues(ranges: seq<Range>, range: nat): seq<u32>
    requires range < |ranges| && AreRanges(ranges)
  {
    if range + 1 < |ranges| then
      assert ranges[range + 1] in ranges;
      ValuesFrom(ranges, range + 1, ranges[range + 1].first)
    else []
  }

  lemma {:induction false} RangeInOrder(ranges: seq<Range>, range: nat, value: nat)
    requires range < |ranges| && value <= ranges[range].last && AreRanges(ranges)
    ensures ValuesFrom(ranges, range, value) == Span(value, ranges[range].last) + LaterValues(ranges, range)
    decreases ranges[range].last - value
  {
    if value < ranges[range].last {
      RangeInOrder(ranges, range, value + 1);
      InFront(value, Span(value + 1, ranges[range].last), LaterValues(ranges, range));
    }
  }

  lemma {:induction false} ValuesInOrder(ranges: seq<Range>, range: nat)
    requires range < |ranges| && AreRanges(ranges)
    ensures LaterValues(ranges, range) == Values(ranges[range + 1..])
    decreases |ranges| - range
  {
    if range + 1 < |ranges| {
      ValuesInOrder(ranges, range + 1);
      ValuesOfRest(ranges, range + 1);
      RangeInOrder(ranges, range + 1, ranges[range + 1].first);
    }
  }

  /** A list loop goes through every value of every range, in order. */
  lemma ListIsWhole(ranges: seq<Range>)
    requires ranges != [] && AreRanges(ranges)
    ensures ranges[0].first <= ranges[0].last && ValuesFrom(ranges, 0, ranges[0].first) == Values(ranges)
  {
    ValuesOfRest(ranges, 0);
    assert ranges[0..] == ranges;
    ValuesInOrder(ranges, 0);
    RangeInOrder(ranges, 0, ranges[0].first);
  }

  // ---------- chunks ----------

  function Padding(pad: Option<u8>, count: nat): (p: seq<u8>)
    ensures |p| == if pad.Some? then count else 0
  {
    if pad.Some? then seq(count, _ => pad.value) else []
  }

  /** The chunk at an offset of the data; empty past its end. */
  function ChunkAt(data: seq<u8>, size: nat, pad: Option<u8>, offset: nat): seq<u8> {
    if offset >= |data| then []
    else if offset + size <= |data| then data[offset..offset + size]
    else data[offset..] + Padding(pad, size - (|data| - offset))
  }

  function ChunksFrom(data: seq<u8>, size: nat, pad: Option<u8>, offset: nat): seq<seq<u8>>
    requires size > 0
    decreases |data| - offset
  {
    if offset >= |data| then []
    else [ChunkAt(data, size, pad, offset)] + ChunksFrom(data, size, pad, offset + size)
  }

  /** How many bytes are missing to a whole number of chunks. */
  function Shortfall(length: nat, size: nat): nat
    requires size > 0
    decreases length
  {
    if length == 0 then 0 else if length < size then size - length else Shortfall(length - size, size)
  }

  lemma ConcatOf(first: seq<u8>, rest: seq<seq<u8>>)
    ensures Concat([first] + rest) == first + Concat(rest)
  {
    assert ([first] + rest)[1..] == rest;
  }

  lemma WholeChunkFirst(data: seq<u8>, size: nat, offset: nat, padding: seq<u8>)
    requires offset + size <= |data|
    ensures data[offset..] + padding == data[offset..offset + size] + (data[offset + size..] + padding)
  {
    assert data[offset..] == data[offset..offset + size] + data[offset + size..];
  }

  lemma {:induction false} ChunksJoin(data: seq<u8>, size: nat, pad: Option<u8>, offset: nat)
    requires size > 0 && offset <= |data|
    ensures Concat(ChunksFrom(data, size, pad, offset)) == data[offset..] + Padding(pad, Shortfall(|data| - offset, size))
    decreases |data| - offset
  {
    if offset == |data| {
      assert data[offset..] == [];
    } else {
      ConcatOf(ChunkAt(data, size, pad, offset), ChunksFrom(data, size, pad, offset + size));
      if offset + size <= |data| {
        ChunksJoin(data, size, pad, offset + size);
        WholeChunkFirst(data, size, offset, Padding(pad, Shortfall(|data| - offset - size, size)));
      }
    }
  }

  /** The chunks of a loop are its source cut in order, extended to a whole number of chunks if the loop pads. */
  lemma ChunksPartition(data: seq<u8>, size: nat, pad: Option<u8>)
    requires size > 0
    ensures Concat(ChunksFrom(data, size, pad, 0)) == data + Padding(pad, Shortfall(|data|, size))
  {
    ChunksJoin(data, size, pad, 0);
  }

  /** What padding adds makes the length the chunk size times the number of chunks. */
  lemma {:induction false} PaddedToWholeChunks(data: seq<u8>, size: nat, pad: Option<u8>, offset: nat)
    requires size > 0 && offset <= |data|
    ensures |data| - offset + Shortfall(|data| - offset, size) == size * |ChunksFrom(data, size, pad, offset)|
    decreases |data| - offset
  {
    if offset < |data| {
      var rest := |ChunksFrom(data, size, pad, offset + size)|;
      assert size * (rest + 1) == size * rest + size;
      if offset + size <= |data| {
        PaddedToWholeChunks(data, size, pad, offset + size);
      }
    }
  }

  /** No chunk is empty, and all have the full size: with padding without exception, else but for the last. */
  lemma {:induction false} ChunkSizes(data: seq<u8>, size: nat, pad: Option<u8>, offset: nat, k: nat)
    requires size > 0 && k < |ChunksFrom(data, size, pad, offset)|
    ensures var chunks := ChunksFrom(data, size, pad, offset);
      0 < |chunks[k]| <= size && (pad.Some? || k + 1 < |chunks| ==> |chunks[k]| == size)
    decreases |data| - offset
  {
    var rest := ChunksFrom(data, size, pad, offset + size);
    assert ChunksFrom(data, size, pad, offset) == [ChunkAt(data, size, pad, offset)] + rest;
    if k > 0 {
      ChunkSizes(data, size, pad, offset + size, k - 1);
    }
  }
}
