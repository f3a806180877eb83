/**
  The byte ring that holds a transaction's step records (src/agent/domain/step_ring.c).
  A record never splits across the end of the storage.
 */
module StepRing {
  import opened Frames
  import opened ByteStrings

  /** Largest record; callers keep this much of the capacity free. */
  const RECORD_MAX := 272

  class StepRing {
    const storage: array<u8>
    var readOffset: nat
    var writeOffset: nat
    var wrapOffset: nat
    var usedBytes: nat
    var wrapped: bool

    /** The records in arrival order; `split` of them stand before the wrap. */
    ghost var records: seq<seq<u8>>
    ghost var split: nat

    ghost predicate Valid()
      reads this, storage
    {
      && (forall r | r in records :: 0 < |r| <= RECORD_MAX)
      && readOffset <= storage.Length && writeOffset <= storage.Length && wrapOffset <= storage.Length
      && usedBytes == |Concat(records)|
      && (records == [] ==> !wrapped && readOffset == 0)
      && if wrapped then
           && 0 < split <= |records|
           && writeOffset <= readOffset < wrapOffset
           && storage.Length < wrapOffset + RECORD_MAX
           && storage[readOffset..wrapOffset] == Concat(records[..split])
           && storage[..writeOffset] == Concat(records[split..])
         else
           && readOffset <= writeOffset
           && storage[readOffset..writeOffset] == Concat(records)
    }

    constructor (capacity: nat)
      ensures Valid() && fresh(storage) && storage.Length == capacity && records == []
    {
      storage := new u8[capacity](_ => 0);
      readOffset, writeOffset, wrapOffset, usedBytes, wrapped := 0, 0, 0, 0, false;
      records, split := [], 0;
    }

    method Clear()
      modifies this
      ensures Valid() && records == [] && usedBytes == 0
    {
      readOffset, writeOffset, wrapOffset, usedBytes, wrapped := 0, 0, 0, 0, false;
      records, split := [], 0;
    }

    /** The record is taken exactly when it fits in one piece, and a record within the credit always does. */
    method Push(record: seq<u8>) returns (ok: bool)
      requires Valid() && 0 < |record| <= RECORD_MAX
      modifies this, storage
      ensures Valid()
      ensures records == old(records) + if ok then [record] else []
      ensures !ok ==> unchanged(this) && unchanged(storage)
      ensures old(usedBytes) + |record| + RECORD_MAX <= storage.Length ==> ok
      ensures ok <==>
        if old(wrapped) then old(writeOffset) + |record| <= old(readOffset)
        else old(writeOffset) + |record| <= storage.Length || |record| <= old(readOffset)
    {
      WrapCovers();
      if wrapped {
        ok := PushWrapped(record);
      } else {
        ok := PushContiguous(record);
      }
    }

    /** The tail skipped by the wrap is shorter than one record, so it never costs more than the reserve. */
    lemma WrapCovers()
      requires Valid()
      ensures wrapped ==> usedBytes == wrapOffset - readOffset + writeOffset
      ensures !wrapped ==> usedBytes == writeOffset - readOffset
    {
      if wrapped {
        ConcatAppend(records[..split], records[split..]);
        assert records[..split] + records[split..] == records;
      }
    }

    method PushContiguous(record: seq<u8>) returns (ok: bool)
      requires Valid() && !wrapped && 0 < |record| <= RECORD_MAX
      modifies this, storage
      ensures Valid()
      ensures records == old(records) + if ok then [record] else []
      ensures !ok ==> unchanged(this) && unchanged(storage)
      ensures ok <==> old(writeOffset) + |record| <= storage.Length || |record| <= old(readOffset)
    {
      if writeOffset + |record| <= storage.Length {
        Append(record);
        return true;
      }
      if |record| > readOffset {
        return false;
      }
      ConcatEmpty(records);
      wrapOffset, writeOffset, wrapped := writeOffset, 0, true;
      split := |records|;
      assert storage[..0] == Concat([]);
      assert records[..split] == records && records[split..] == [];
      Append(record);
      return true;
    }

    method PushWrapped(record: seq<u8>) returns (ok: bool)
      requires Valid() && wrapped && 0 < |record| <= RECORD_MAX
      modifies this, storage
      ensures Valid()
      ensures records == old(records) + if ok then [record] else []
      ensures !ok ==> unchanged(this) && unchanged(storage)
      ensures ok <==> old(writeOffset) + |record| <= old(readOffset)
    {
      if writeOffset + |record| > readOffset {
        return false;
      }
      Append(record);
      return true;
    }

    /** memcpy into the storage. */
    method Write(at: nat, data: seq<u8>)
      requires at + |data| <= storage.Length
      modifies storage
      ensures storage[at..at + |data|] == data
      ensures forall i | 0 <= i < storage.Length && !(at <= i < at + |data|) :: storage[i] == old(storage[i])
    {
      forall i | 0 <= i < |data| {
        storage[at + i] := data[i];
      }
    }

    method Append(record: seq<u8>)
      requires Valid() && 0 < |record| <= RECORD_MAX
      requires if wrapped then writeOffset + |record| <= readOffset else writeOffset + |record| <= storage.Length
      modifies this, storage
      ensures Valid() && records == old(records) + [record]
    {
      if wrapped {
        AppendBehindWrap(record);
      } else {
        AppendAhead(record);
      }
    }

    method AppendAhead(record: seq<u8>)
      requires Valid() && 0 < |record| <= RECORD_MAX && !wrapped && writeOffset + |record| <= storage.Length
      modifies this, storage
      ensures Valid() && records == old(records) + [record]
    {
      Write(writeOffset, record);
      ConcatPush(records, record);
      Slices(old(storage[..]), storage[..], 0, 0, readOffset, writeOffset, record);
      writeOffset, usedBytes := writeOffset + |record|, usedBytes + |record|;
      records := records + [record];
    }

    method AppendBehindWrap(record: seq<u8>)
      requires Valid() && 0 < |record| <= RECORD_MAX && wrapped && writeOffset + |record| <= readOffset
      modifies this, storage
      ensures Valid() && records == old(records) + [record]
    {
      Write(writeOffset, record);
      ghost var more := records + [record];
      ConcatPush(records, record);
      Slices(old(storage[..]), storage[..], readOffset, wrapOffset, 0, writeOffset, record);
      ConcatPush(records[split..], record);
      assert more[..split] == records[..split] && more[split..] == records[split..] + [record];
      writeOffset, usedBytes := writeOffset + |record|, usedBytes + |record|;
      records := more;
    }

    /** What a write at `to` leaves of bytes kept elsewhere and of those it follows. */
    static lemma Slices(was: seq<u8>, now: seq<u8>, keptFrom: nat, keptTo: nat, from: nat, to: nat, record: seq<u8>)
      requires |was| == |now| && from <= to && to + |record| <= |now| && keptFrom <= keptTo <= |now|
      requires keptFrom == keptTo || to + |record| <= keptFrom
      requires now[to..to + |record|] == record
      requires forall i | 0 <= i < |now| && !(to <= i < to + |record|) :: now[i] == was[i]
      ensures now[keptFrom..keptTo] == was[keptFrom..keptTo]
      ensures now[from..to + |record|] == was[from..to] + record
    {
    }

    /** What can be read in one piece: it begins with the oldest record, whole. */
    method Peek() returns (available: seq<u8>)
      requires Valid()
      ensures records == [] <==> available == []
      ensures records != [] ==> records[0] <= available
    {
      if usedBytes == 0 {
        ConcatEmpty(records);
        return [];
      }
      var end := if wrapped then wrapOffset else writeOffset;
      ghost var front := if wrapped then records[..split] else records;
      assert front != [] && front[0] == records[0];
      assert Concat(front) == front[0] + Concat(front[1..]);
      return storage[readOffset..end];
    }

    method Release(size: nat)
      requires Valid() && records != [] && size == |records[0]|
      modifies this
      ensures Valid() && records == old(records[1..]) && usedBytes == old(usedBytes) - size
    {
      ghost var rest := records[1..];
      assert Concat(records) == records[0] + Concat(rest);
      if wrapped {
        ghost var front := records[..split];
        assert front[0] == records[0] && front[1..] == rest[..split - 1];
        assert Concat(front) == front[0] + Concat(front[1..]);
        assert storage[readOffset + size..wrapOffset] == storage[readOffset..wrapOffset][size..];
        assert records[split..] == rest[split - 1..];
      } else {
        assert storage[readOffset + size..writeOffset] == storage[readOffset..writeOffset][size..];
      }
      readOffset, usedBytes := readOffset + size, usedBytes - size;
      records := rest;
      split := if wrapped then split - 1 else 0;
      if usedBytes == 0 {
        ConcatEmpty(rest);
        Clear();
        return;
      }
      WrapReadAtEndOfFirstSegment();
    }

    /** Valid but for the read offset that may stand at the wrap. */
    method WrapReadAtEndOfFirstSegment()
      requires (forall r | r in records :: 0 < |r| <= RECORD_MAX)
      requires readOffset <= storage.Length && writeOffset <= storage.Length && wrapOffset <= storage.Length
      requires usedBytes == |Concat(records)|
      requires if wrapped then
          && split <= |records| && writeOffset <= readOffset <= wrapOffset
          && storage.Length < wrapOffset + RECORD_MAX
          && storage[readOffset..wrapOffset] == Concat(records[..split])
          && storage[..writeOffset] == Concat(records[split..])
        else readOffset <= writeOffset && storage[readOffset..writeOffset] == Concat(records)
      requires usedBytes > 0 && split <= |records|
      modifies this
      ensures Valid() && records == old(records) && usedBytes == old(usedBytes)
    {
      ConcatEmpty(records);
      ConcatEmpty(records[..split]);
      if !wrapped || readOffset != wrapOffset {
        return;
      }
      assert records[split..] == records;
      readOffset, wrapped := 0, false;
    }
  }
}
