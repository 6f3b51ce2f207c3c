/**
 `Buffer`: one growing array, a reader index and a writer index.  Its meaning is the byte string between the indices.
 `Layout` follows the indices and the array size alone, which is all that decides when the array grows.
 */
module Buffers {
  import opened Bytes

  const CHEAP_PREPEND := 8
  const INITIAL_SIZE := 1024
  const EXTRA_BUFFER := 65536

  datatype Layout = Layout(size: nat, reader: nat, writer: nat) {
    /** An empty buffer always sits at its initial position. */
    predicate Valid() {
      && reader <= writer <= size && CHEAP_PREPEND <= size
      && (reader == writer ==> reader == CHEAP_PREPEND)
    }

    function Readable(): int { writer - reader }

    function Writable(): int { size - writer }

    /** Growing is the last resort: first the room before the reader index is reclaimed. */
    predicate Grows(len: nat) {
      len > Writable() && Writable() + reader < len + CHEAP_PREPEND
    }

    function EnsureWritable(len: nat): Layout
      requires Valid()
    {
      if len <= Writable() then this
      else if Writable() + reader < len + CHEAP_PREPEND then Layout(writer + len, reader, writer)
      else Layout(size, CHEAP_PREPEND, CHEAP_PREPEND + Readable())
    }

    function Append(len: nat): Layout
      requires Valid()
    {
      var g := EnsureWritable(len);
      g.(writer := g.writer + len)
    }

    function Retrieve(len: nat): Layout
      requires Valid()
    {
      if len < Readable() then this.(reader := reader + len)
      else this.(reader := CHEAP_PREPEND, writer := CHEAP_PREPEND)
    }

    function Prepend(len: nat): Layout {
      if len > reader then this else this.(reader := reader - len)
    }

    /** `n` octets arrive by scatter read: what does not fit is appended from the stack buffer. */
    function ReadFd(n: nat): Layout
      requires Valid()
    {
      if n <= Writable() then this.(writer := writer + n)
      else this.(writer := size).Append(n - Writable())
    }
  }

  lemma LayoutStaysValid(g: Layout, len: nat)
    requires g.Valid()
    ensures g.EnsureWritable(len).Valid() && g.EnsureWritable(len).Writable() >= len
    ensures g.EnsureWritable(len).Readable() == g.Readable()
    ensures g.Append(len).Valid() && g.Append(len).Readable() == g.Readable() + len
    ensures g.Retrieve(len).Valid()
    ensures g.Retrieve(len).Readable() == if len < g.Readable() then g.Readable() - len else 0
    ensures g.Prepend(len).Valid()
    ensures g.ReadFd(len).Valid() && g.ReadFd(len).Readable() == g.Readable() + len
  {
  }

  /** The readable octets are moved only downwards, so copying them forwards never reads a clobbered octet. */
  lemma CompactionMovesDown(g: Layout, len: nat)
    requires g.Valid() && len > g.Writable() && !g.Grows(len)
    ensures g.reader > CHEAP_PREPEND
  {
  }

  lemma AppendBound(g: Layout, len: nat)
    requires g.Valid()
    ensures g.Append(len).size == if g.Grows(len) then g.writer + len else g.size
    ensures g.Grows(len) ==> g.size < g.Append(len).size <= g.Readable() + 2 * len + 7
  {
  }

  // ---- Capacity over whole runs ----

  datatype Op = Append(len: nat) | Ensure(len: nat) | Retrieve(len: nat) | Prepend(len: nat) | ReadFd(len: nat)

  function Do(g: Layout, op: Op): (r: Layout)
    requires g.Valid()
    ensures r.Valid()
  {
    LayoutStaysValid(g, op.len);
    match op
    case Append(len) => g.Append(len)
    case Ensure(len) => g.EnsureWritable(len)
    case Retrieve(len) => g.Retrieve(len)
    case Prepend(len) => g.Prepend(len)
    case ReadFd(len) => g.ReadFd(len)
  }

  function DoAll(g: Layout, ops: seq<Op>): (r: Layout)
    requires g.Valid()
    ensures r.Valid()
    decreases ops
  {
    if ops == [] then g else DoAll(Do(g, ops[0]), ops[1..])
  }

  /** At most `held` octets are ever readable, and at most `chunk` are asked for at a time (beyond what fits). */
  predicate Modest(g: Layout, ops: seq<Op>, held: nat, chunk: nat)
    requires g.Valid()
    decreases ops
  {
    g.Readable() <= held
    && (ops == [] ||
        ((ops[0].Append? || ops[0].Ensure? ==> ops[0].len <= chunk)
         && (ops[0].ReadFd? ==> ops[0].len <= g.Writable() + chunk)
         && Modest(Do(g, ops[0]), ops[1..], held, chunk)))
  }

  /** However much passes through, the array never outgrows what is held at one time plus two chunks. */
  lemma {:induction false} CapacityBound(g: Layout, ops: seq<Op>, held: nat, chunk: nat)
    requires g.Valid() && Modest(g, ops, held, chunk)
    ensures DoAll(g, ops).size <= g.size || DoAll(g, ops).size <= held + 2 * chunk + 7
    decreases ops
  {
    if ops != [] {
      CapacityBound(Do(g, ops[0]), ops[1..], held, chunk);
      AppendBound(g, ops[0].len);
      if ops[0].ReadFd? && ops[0].len > g.Writable() {
        var full := g.(writer := g.size);
        LayoutStaysValid(g, ops[0].len);
        AppendBound(full, ops[0].len - g.Writable());
        assert Do(g, ops[0]).Readable() <= held;
      }
    }
  }

  lemma Split(s: seq<Byte>, i: nat, j: nat, k: nat)
    requires i <= j <= k <= |s|
    ensures s[i..k] == s[i..j] + s[j..k]
  {
  }

  lemma SliceOfSlice(s: seq<Byte>, i: nat, k: nat, offset: nat, len: nat)
    requires i + offset + len <= k <= |s|
    ensures s[i..k][offset..offset + len] == s[i + offset..i + offset + len]
  {
    var x, y := s[i..k][offset..offset + len], s[i + offset..i + offset + len];
    forall j | 0 <= j < len ensures x[j] == y[j] {
      assert s[i..k][offset + j] == s[i + offset + j];
    }
  }

  lemma Rejoin(s: seq<Byte>, data: seq<Byte>, n: nat)
    requires n <= |data|
    ensures s + data[..n] + data[n..] == s + data
  {
    assert data[..n] + data[n..] == data;
  }

  class Buffer {
    var buf: array<Byte>
    var readerIndex: nat
    var writerIndex: nat

    ghost predicate Valid()
      reads this
    {
      Geometry().Valid()
    }

    ghost function Geometry(): Layout
      reads this
    {
      Layout(buf.Length, readerIndex, writerIndex)
    }

    ghost function Contents(): seq<Byte>
      requires Valid()
      reads this, buf
    {
      buf[readerIndex..writerIndex]
    }

    constructor (initialSize: nat)
      ensures Valid() && fresh(buf) && Contents() == []
      ensures Geometry() == Layout(CHEAP_PREPEND + initialSize, CHEAP_PREPEND, CHEAP_PREPEND)
    {
      buf := new Byte[CHEAP_PREPEND + initialSize];
      readerIndex := CHEAP_PREPEND;
      writerIndex := CHEAP_PREPEND;
    }

    method ReadableBytes() returns (n: nat)
      requires Valid()
      ensures n == |Contents()|
    {
      n := writerIndex - readerIndex;
    }

    /** The octets from `peek() + offset` on. */
    method Peek(offset: nat, len: nat) returns (data: seq<Byte>)
      requires Valid() && offset + len <= |Contents()|
      ensures data == Contents()[offset..offset + len]
    {
      data := buf[readerIndex + offset..readerIndex + offset + len];
      SliceOfSlice(buf[..], readerIndex, writerIndex, offset, len);
    }

    method CopyIn(at: nat, data: seq<Byte>)
      requires at + |data| <= buf.Length
      modifies buf
      ensures buf[at..at + |data|] == data
      ensures buf[..at] == old(buf[..at]) && buf[at + |data|..] == old(buf[at + |data|..])
    {
      for i := 0 to |data|
        invariant buf[at..at + i] == data[..i]
        invariant buf[..at] == old(buf[..at]) && buf[at + |data|..] == old(buf[at + |data|..])
      {
        buf[at + i] := data[i];
      }
    }

    method Prepend(data: seq<Byte>)
      requires Valid()
      modifies this`readerIndex, buf
      ensures Valid() && Geometry() == old(Geometry()).Prepend(|data|)
      ensures Contents() == if |data| > old(readerIndex) then old(Contents()) else data + old(Contents())
    {
      if |data| > readerIndex {
        return;
      }
      ghost var tail := buf[readerIndex..];
      readerIndex := readerIndex - |data|;
      CopyIn(readerIndex, data);
      Split(buf[..], readerIndex, readerIndex + |data|, writerIndex);
      assert old(Contents()) == tail[..writerIndex - old(readerIndex)];
      assert buf[old(readerIndex)..] == tail;
      assert buf[old(readerIndex)..writerIndex] == tail[..writerIndex - old(readerIndex)];
    }

    method RetrieveAll()
      requires Valid()
      modifies this`readerIndex, this`writerIndex
      ensures Valid() && Contents() == []
      ensures Geometry() == old(Geometry()).(reader := CHEAP_PREPEND, writer := CHEAP_PREPEND)
    {
      readerIndex := CHEAP_PREPEND;
      writerIndex := CHEAP_PREPEND;
    }

    method Retrieve(len: nat)
      requires Valid()
      modifies this`readerIndex, this`writerIndex
      ensures Valid() && Geometry() == old(Geometry()).Retrieve(len)
      ensures Contents() == if len < |old(Contents())| then old(Contents())[len..] else []
    {
      if len < writerIndex - readerIndex {
        readerIndex := readerIndex + len;
      } else {
        readerIndex := CHEAP_PREPEND;
        writerIndex := CHEAP_PREPEND;
      }
    }

    method RetrieveAsString(len: nat) returns (result: seq<Byte>)
      requires Valid() && len <= |Contents()|
      modifies this`readerIndex, this`writerIndex
      ensures Valid() && Geometry() == old(Geometry()).Retrieve(len)
      ensures result + Contents() == old(Contents()) && |result| == len
    {
      result := buf[readerIndex..readerIndex + len];
      Retrieve(len);
    }

    method RetrieveAllAsString() returns (result: seq<Byte>)
      requires Valid()
      modifies this`readerIndex, this`writerIndex
      ensures Valid() && result == old(Contents()) && Contents() == []
    {
      result := RetrieveAsString(writerIndex - readerIndex);
    }

    method Grow(len: nat)
      requires Valid() && len > buf.Length - writerIndex
      modifies this`buf
      ensures Valid() && Geometry() == Layout(writerIndex + len, readerIndex, writerIndex)
      ensures Contents() == old(Contents()) && fresh(buf)
    {
      var larger := new Byte[writerIndex + len];
      for i := 0 to buf.Length
        modifies larger
        invariant larger[..i] == buf[..i]
      {
        larger[i] := buf[i];
      }
      assert larger[readerIndex..writerIndex] == larger[..buf.Length][readerIndex..writerIndex];
      buf := larger;
    }

    method Compact()
      requires Valid() && readerIndex > CHEAP_PREPEND
      modifies this`readerIndex, this`writerIndex, buf
      ensures Valid() && Contents() == old(Contents())
      ensures Geometry() == Layout(buf.Length, CHEAP_PREPEND, CHEAP_PREPEND + |Contents()|)
    {
      var readable := writerIndex - readerIndex;
      for i := 0 to readable
        modifies buf
        invariant buf[CHEAP_PREPEND..CHEAP_PREPEND + i] == old(buf[readerIndex..readerIndex + i])
        invariant forall k :: readerIndex + i <= k < writerIndex ==> buf[k] == old(buf[k])
      {
        buf[CHEAP_PREPEND + i] := buf[readerIndex + i];
      }
      readerIndex := CHEAP_PREPEND;
      writerIndex := readerIndex + readable;
    }

    /** Room for `len` more octets: a larger array, or the readable octets moved down over the consumed ones. */
    method MakeSpace(len: nat)
      requires Valid() && len > buf.Length - writerIndex
      modifies this, buf
      ensures Valid() && Geometry() == old(Geometry()).EnsureWritable(len) && Contents() == old(Contents())
      ensures buf == old(buf) || fresh(buf)
    {
      if buf.Length - writerIndex + readerIndex < len + CHEAP_PREPEND {
        Grow(len);
      } else {
        CompactionMovesDown(Geometry(), len);
        Compact();
      }
    }

    method EnsureWritableBytes(len: nat)
      requires Valid()
      modifies this, buf
      ensures Valid() && Geometry() == old(Geometry()).EnsureWritable(len) && Contents() == old(Contents())
      ensures buf == old(buf) || fresh(buf)
      ensures buf.Length - writerIndex >= len
    {
      if buf.Length - writerIndex < len {
        MakeSpace(len);
      }
    }

    /** Stores octets from `beginWrite()` on, without making them readable. */
    method Store(data: seq<Byte>)
      requires Valid() && |data| <= buf.Length - writerIndex
      modifies buf
      ensures Contents() == old(Contents())
      ensures buf[writerIndex..writerIndex + |data|] == data
    {
      CopyIn(writerIndex, data);
      assert buf[readerIndex..writerIndex] == buf[..writerIndex][readerIndex..];
      assert old(Contents()) == old(buf[..writerIndex])[readerIndex..];
    }

    method HasWritten(len: nat)
      requires Valid() && len <= buf.Length - writerIndex
      modifies this`writerIndex
      ensures Valid() && Geometry() == old(Geometry()).(writer := old(writerIndex) + len)
      ensures Contents() == old(Contents()) + old(buf[writerIndex..writerIndex + len])
    {
      writerIndex := writerIndex + len;
    }

    /** Data that fits, as `readv` and `append` put it there. */
    method Fill(data: seq<Byte>)
      requires Valid() && |data| <= buf.Length - writerIndex
      modifies this`writerIndex, buf
      ensures Valid() && Geometry() == old(Geometry()).(writer := old(writerIndex) + |data|)
      ensures Contents() == old(Contents()) + data
    {
      Store(data);
      HasWritten(|data|);
    }

    method Append(data: seq<Byte>)
      requires Valid()
      modifies this, buf
      ensures Valid() && Geometry() == old(Geometry()).Append(|data|)
      ensures Contents() == old(Contents()) + data
      ensures buf == old(buf) || fresh(buf)
    {
      EnsureWritableBytes(|data|);
      Fill(data);
    }

    /**
     One scatter read into the writable room and a 64 KiB stack buffer (used only when the room is smaller than
     that).  `outcome` is what `readv` did: the octets delivered, or None on error.
     */
    method ReadFd(outcome: Option<seq<Byte>>) returns (n: int)
      requires Valid()
      requires outcome.Some? ==>
                 |outcome.value| <= if Geometry().Writable() < EXTRA_BUFFER then Geometry().Writable() + EXTRA_BUFFER
                                    else Geometry().Writable()
      modifies this, buf
      ensures Valid() && (buf == old(buf) || fresh(buf))
      ensures outcome.None? ==> n == -1 && Geometry() == old(Geometry()) && Contents() == old(Contents())
      ensures outcome.Some? ==> n == |outcome.value| && Contents() == old(Contents()) + outcome.value
                                && Geometry() == old(Geometry()).ReadFd(n)
    {
      if outcome.None? {
        return -1;
      }
      var data := outcome.value;
      n := |data|;
      var writable := buf.Length - writerIndex;
      if n <= writable {
        Fill(data);
      } else {
        Fill(data[..writable]);
        Append(data[writable..]);
        Rejoin(old(Contents()), data, writable);
      }
    }
  }
}
