/** Strings of bytes kept piece by piece. */
module ByteStrings {
  import opened Frames

  function Concat(pieces: seq<seq<u8>>): seq<u8> {
    if pieces == [] then [] else pieces[0] + Concat(pieces[1..])
  }

  lemma {:induction false} ConcatAppend(pieces: seq<seq<u8>>, more: seq<seq<u8>>)
    ensures Concat(pieces + more) == Concat(pieces) + Concat(more)
    decreases |pieces|
  {
    if pieces == [] {
      assert pieces + more == more;
    } else {
      assert (pieces + more)[0] == pieces[0] && (pieces + more)[1..] == pieces[1..] + more;
      ConcatAppend(pieces[1..], more);
    }
  }

  lemma ConcatOne(piece: seq<u8>)
    ensures Concat([piece]) == piece
  {
    assert [piece][1..] == [];
  }

  lemma ConcatEmpty(pieces: seq<seq<u8>>)
    requires forall p | p in pieces :: p != []
    ensures Concat(pieces) == [] <==> pieces == []
  {
    if pieces != [] {
      assert pieces[0] in pieces;
    }
  }

  lemma ConcatPush(pieces: seq<seq<u8>>, piece: seq<u8>)
    ensures Concat(pieces + [piece]) == Concat(pieces) + piece
  {
    ConcatAppend(pieces, [piece]);
    ConcatOne(piece);
  }

  // ---------- items read off the front, one after the other ----------

  datatype Taken<+T> = Taken(item: T, size: nat)

  type Reader<!T> = read: seq<u8> -> Option<Taken<T>> | forall b :: read(b).Some? ==> read(b).value.size <= |b|
    witness (b: seq<u8>) => None

  /** `count` items back to back, nothing left over. */
  function ReadAll<T>(read: Reader<T>, b: seq<u8>, count: nat): (items: Option<seq<T>>)
    ensures items.Some? ==> |items.value| == count
    decreases count
  {
    if count == 0 then if b == [] then Some([]) else None
    else
      match read(b)
      case None => None
      case Some(first) =>
        match ReadAll(read, b[first.size..], count - 1)
        case None => None
        case Some(rest) => Some([first.item] + rest)
  }

  /** The same walk by offset, as a receiver makes it. */
  predicate WalksFrom<T>(read: Reader<T>, b: seq<u8>, offset: nat, count: nat)
    requires offset <= |b|
    decreases count
  {
    if count == 0 then offset == |b|
    else
      match read(b[offset..])
      case None => false
      case Some(first) => WalksFrom(read, b, offset + first.size, count - 1)
  }

  lemma {:induction false} WalkReads<T>(read: Reader<T>, b: seq<u8>, offset: nat, count: nat)
    requires offset <= |b|
    ensures WalksFrom(read, b, offset, count) <==> ReadAll(read, b[offset..], count).Some?
    decreases count
  {
    if count > 0 {
      var first := read(b[offset..]);
      if first.Some? {
        assert b[offset..][first.value.size..] == b[offset + first.value.size..];
        WalkReads(read, b, offset + first.value.size, count - 1);
      }
    }
  }

  method Walk<T>(read: Reader<T>, b: seq<u8>, count: nat) returns (ok: bool)
    ensures ok <==> ReadAll(read, b, count).Some?
  {
    var offset, i := 0, 0;
    WalkReads(read, b, 0, count);
    assert b[0..] == b;
    while i < count
      invariant 0 <= offset <= |b| && 0 <= i <= count
      invariant WalksFrom(read, b, 0, count) <==> WalksFrom(read, b, offset, count - i)
    {
      var first := read(b[offset..]);
      if first.None? {
        return false;
      }
      offset, i := offset + first.value.size, i + 1;
    }
    return offset == |b|;
  }

  /** Pieces that each read back as their item read back, concatenated, as the items in order. */
  lemma {:induction false} ReadsBackInOrder<T>(read: Reader<T>, pieces: seq<seq<u8>>, items: seq<T>)
    requires |pieces| == |items|
    requires forall i, rest | 0 <= i < |pieces| :: read(pieces[i] + rest) == Some(Taken(items[i], |pieces[i]|))
    ensures ReadAll(read, Concat(pieces), |pieces|) == Some(items)
    decreases |pieces|
  {
    if pieces != [] {
      var rest := Concat(pieces[1..]);
      assert read(pieces[0] + rest) == Some(Taken(items[0], |pieces[0]|));
      assert (pieces[0] + rest)[|pieces[0]|..] == rest;
      ReadsBackInOrder(read, pieces[1..], items[1..]);
      assert [items[0]] + items[1..] == items;
    }
  }

  // ---------- folds that may fail ----------

  function FoldAll<S, T>(step: (S, T) -> Option<S>, s: S, items: seq<T>): Option<S>
    decreases |items|
  {
    if items == [] then Some(s)
    else
      match step(s, items[0])
      case None => None
      case Some(s') => FoldAll(step, s', items[1..])
  }

  method FoldLoop<S, T>(step: (S, T) -> Option<S>, start: S, items: seq<T>) returns (result: Option<S>)
    ensures result == FoldAll(step, start, items)
  {
    var s, i := start, 0;
    assert items[0..] == items;
    while i < |items|
      invariant 0 <= i <= |items|
      invariant FoldAll(step, start, items) == FoldAll(step, s, items[i..])
    {
      var next := step(s, items[i]);
      assert items[i..][1..] == items[i + 1..];
      if next.None? {
        return None;
      }
      s, i := next.value, i + 1;
    }
    return Some(s);
  }
}
