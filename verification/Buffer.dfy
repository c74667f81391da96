/** net/Buffer.h and net/Buffer.cc: a byte FIFO with room to push at the front.

    The object's abstract value is the sequence of its readable bytes. Compaction in
    makeSpace is modelled as intended (the readable count saved before the indices move);
    the lines as written are modelled beside it, in BufferAsWritten. */
module Buffers {

  newtype Byte = b: int | 0 <= b < 256

  const CHEAP_PREPEND: nat := 8
  const INITIAL_SIZE: nat := 1024
  const EXTRA_BUF: nat := 65536

  type Bytes = seq<Byte>

  // ----- Network byte order -----

  /** Two's-complement reading of an unsigned value of the given width. */
  function Signed(u: nat, bound: nat): int
    requires u < bound
  {
    if u < bound / 2 then u else u - bound
  }

  function Unsigned(x: int, bound: nat): (u: nat)
    requires bound > 0 && -(bound as int) <= 2 * x < bound as int
    ensures u < bound
  {
    if x >= 0 then x else x + bound
  }

  predicate IsInt32(x: int) { -0x8000_0000 <= x <= 0x7fff_ffff }
  predicate IsInt16(x: int) { -0x8000 <= x <= 0x7fff }
  predicate IsInt8(x: int) { -0x80 <= x <= 0x7f }

  /** The big-endian bytes of a value below 2^32. */
  function BigEndian32(u: nat): (s: Bytes)
    requires u < 0x1_0000_0000
    ensures |s| == 4
  {
    [(u / 0x100_0000) as Byte, (u / 0x1_0000 % 0x100) as Byte, (u / 0x100 % 0x100) as Byte, (u % 0x100) as Byte]
  }

  function FromBigEndian32(s: Bytes): (u: nat)
    requires |s| == 4
    ensures u < 0x1_0000_0000
  {
    s[0] as nat * 0x100_0000 + s[1] as nat * 0x1_0000 + s[2] as nat * 0x100 + s[3] as nat
  }

  function Encode32(x: int): (s: Bytes)
    requires IsInt32(x)
    ensures |s| == 4
  {
    BigEndian32(Unsigned(x, 0x1_0000_0000))
  }

  function Decode32(s: Bytes): (x: int)
    requires |s| == 4
    ensures IsInt32(x)
  {
    Signed(FromBigEndian32(s), 0x1_0000_0000)
  }

  lemma Split32(u: nat)
    requires u < 0x1_0000_0000
    ensures u / 0x100_0000 < 0x100
    ensures u == u / 0x100_0000 * 0x100_0000 + u / 0x1_0000 % 0x100 * 0x1_0000 + u / 0x100 % 0x100 * 0x100 + u % 0x100
  {
    Divide16(u);
    Divide24(u);
    var q1, q2, q3 := u / 0x100, u / 0x1_0000, u / 0x100_0000;
    assert u == q1 * 0x100 + u % 0x100;
    assert q1 == q2 * 0x100 + q1 % 0x100;
    assert q2 == q3 * 0x100 + q2 % 0x100;
  }

  lemma LastByte(q: nat, b: nat)
    requires b < 0x100
    ensures (q * 0x100 + b) / 0x100 == q && (q * 0x100 + b) % 0x100 == b
  {
  }

  lemma Divide16(u: nat)
    ensures u / 0x1_0000 == u / 0x100 / 0x100
  {
  }

  lemma Divide24(u: nat)
    ensures u / 0x100_0000 == u / 0x1_0000 / 0x100
  {
  }

  /** Every int32 survives the trip through network byte order, and every four bytes are some int32's. */
  lemma Int32RoundTrip(x: int)
    requires IsInt32(x)
    ensures Decode32(Encode32(x)) == x
  {
    Split32(Unsigned(x, 0x1_0000_0000));
  }

  lemma Int32Injective(s: Bytes)
    requires |s| == 4
    ensures Encode32(Decode32(s)) == s
  {
    var u := FromBigEndian32(s);
    var a, b, c, d := s[0] as nat, s[1] as nat, s[2] as nat, s[3] as nat;
    LastByte(a * 0x1_0000 + b * 0x100 + c, d);
    LastByte(a * 0x100 + b, c);
    LastByte(a, b);
    Divide16(u);
    Divide24(u);
    assert Unsigned(Signed(u, 0x1_0000_0000), 0x1_0000_0000) == u;
  }

  function Encode8(x: int): Byte
    requires IsInt8(x)
  {
    Unsigned(x, 0x100) as Byte
  }

  function Decode8(b: Byte): (x: int)
    ensures IsInt8(x) && Encode8(x) == b
  {
    Signed(b as nat, 0x100)
  }

  lemma Int8RoundTrip(x: int)
    requires IsInt8(x)
    ensures Decode8(Encode8(x)) == x
  {
  }

  /** appendInt16 on a host of either byte order: big-endian bytes. */
  function Encode16(x: int): (s: Bytes)
    requires IsInt16(x)
    ensures |s| == 2
  {
    var u := Unsigned(x, 0x1_0000);
    [(u / 0x100) as Byte, (u % 0x100) as Byte]
  }

  /** peekInt16 as written, on a little-endian host: the two bytes are read as an int16, widened to
      32 bits with its sign, byte-swapped as 32 bits, and cut back to 16. */
  function PeekInt16(s: Bytes): int
    requires |s| == 2
  {
    var be16 := Signed(s[0] as nat + s[1] as nat * 0x100, 0x1_0000);
    var u := Unsigned(be16, 0x1_0000_0000);
    var swapped := u % 0x100 * 0x100_0000 + u / 0x100 % 0x100 * 0x1_0000
                 + u / 0x1_0000 % 0x100 * 0x100 + u / 0x100_0000;
    Signed(swapped % 0x1_0000, 0x1_0000)
  }

  lemma PeekInt16IsSign(s: Bytes)
    requires |s| == 2
    ensures PeekInt16(s) == if s[1] < 0x80 then 0 else -1
  {
    var v := s[0] as nat + s[1] as nat * 0x100;
    var be16 := Signed(v, 0x1_0000);
    var u := Unsigned(be16, 0x1_0000_0000);
    var high := u / 0x1_0000 % 0x100 * 0x100 + u / 0x100_0000;
    if s[1] < 0x80 {
      assert u == v && u / 0x1_0000 == 0;
      assert u / 0x100_0000 == 0;
      assert high == 0;
    } else {
      assert u == v + 0xffff_0000;
      assert u / 0x1_0000 == 0xffff;
      assert u / 0x100_0000 == 0xff;
      assert high == 0xffff;
    }
    LowHalf(u % 0x100 * 0x100 + u / 0x100 % 0x100, high);
  }

  lemma LowHalf(upper: nat, lower: nat)
    requires lower < 0x1_0000
    ensures (upper * 0x1_0000 + lower) % 0x1_0000 == lower
  {
  }

  /** The 16-bit round trip holds for 0 and -1, and for no other value. */
  lemma Int16RoundTripExactly(x: int)
    requires IsInt16(x)
    ensures PeekInt16(Encode16(x)) == x <==> x == 0 || x == -1
  {
    PeekInt16IsSign(Encode16(x));
    var u := Unsigned(x, 0x1_0000);
    if PeekInt16(Encode16(x)) == x {
      assert x == 0 || x == -1;
    }
  }

  /** The number that bytes stand for, most significant first. */
  function Value(s: Bytes): nat {
    if s == [] then 0 else 256 * Value(s[..|s| - 1]) + s[|s| - 1] as nat
  }

  lemma ValueOfFour(s: Bytes)
    requires |s| == 4
    ensures Value(s) == s[0] as nat * 0x100_0000 + s[1] as nat * 0x1_0000 + s[2] as nat * 0x100 + s[3] as nat
  {
    ValueOfTwo(s[..2]);
    assert s[..3][..2] == s[..2];
    assert Value(s[..3]) == 256 * Value(s[..2]) + s[2] as nat;
  }

  lemma ValueOfTwo(s: Bytes)
    requires |s| == 2
    ensures Value(s) == s[0] as nat * 0x100 + s[1] as nat
  {
    assert s[..1][..0] == [];
    assert Value(s[..1]) == s[0] as nat;
  }

  /** Network byte order: the bytes written for an integer stand, most significant first, for the integer
      modulo 2^32, 2^16 or 2^8. */
  lemma NetworkOrder32(x: int)
    requires IsInt32(x)
    ensures Value(Encode32(x)) == if x >= 0 then x else x + 0x1_0000_0000
  {
    ValueOfFour(Encode32(x));
    Split32(if x >= 0 then x else x + 0x1_0000_0000);
  }

  lemma NetworkOrder16(x: int)
    requires IsInt16(x)
    ensures Value(Encode16(x)) == if x >= 0 then x else x + 0x1_0000
  {
    ValueOfTwo(Encode16(x));
  }

  lemma NetworkOrder8(x: int)
    requires IsInt8(x)
    ensures Value([Encode8(x)]) == if x >= 0 then x else x + 0x100
  {
    assert [Encode8(x)][..0] == [];
  }

  /** Copying `data` over the bytes from `to` on appends it to what is read from `from`... */
  lemma CopyAfter(buffer: Bytes, from: nat, to: nat, data: Bytes)
    requires from <= to && to + |data| <= |buffer|
    ensures (buffer[..to] + data + buffer[to + |data|..])[from..to + |data|] == buffer[from..to] + data
  {
  }

  /** ...and copying it over the bytes before puts it in front. */
  lemma CopyBefore(buffer: Bytes, from: nat, to: nat, data: Bytes)
    requires from + |data| <= to <= |buffer|
    ensures (buffer[..from] + data + buffer[from + |data|..])[from..to] == data + buffer[from + |data|..to]
  {
  }

  // ----- The object -----

  class Buffer {
    var buffer: seq<Byte>
    var readerIndex: nat
    var writerIndex: nat

    ghost predicate Valid()
      reads this
    {
      CHEAP_PREPEND <= |buffer| && readerIndex <= writerIndex <= |buffer|
    }

    /** The readable bytes. */
    ghost function Readable(): Bytes
      requires Valid()
      reads this
    {
      buffer[readerIndex..writerIndex]
    }

    function ReadableBytes(): (n: nat)
      requires Valid()
      reads this
      ensures n == |Readable()|
    {
      writerIndex - readerIndex
    }

    function WritableBytes(): nat
      requires Valid()
      reads this
    {
      |buffer| - writerIndex
    }

    function PrependableBytes(): nat
      reads this
    {
      readerIndex
    }

    constructor ()
      ensures Valid() && Readable() == []
      ensures WritableBytes() == INITIAL_SIZE && PrependableBytes() == CHEAP_PREPEND
    {
      buffer := seq(CHEAP_PREPEND + INITIAL_SIZE, _ => 0);
      readerIndex, writerIndex := CHEAP_PREPEND, CHEAP_PREPEND;
    }

    /** peek() with the bytes it points at. */
    method Peek() returns (bytes: Bytes)
      requires Valid()
      ensures bytes == Readable()
    {
      bytes := buffer[readerIndex..writerIndex];
    }

    method RetrieveAll()
      requires Valid()
      modifies this
      ensures Valid() && Readable() == [] && PrependableBytes() == CHEAP_PREPEND && buffer == old(buffer)
    {
      readerIndex := CHEAP_PREPEND;
      writerIndex := CHEAP_PREPEND;
    }

    method Retrieve(len: nat)
      requires Valid() && len <= ReadableBytes()
      modifies this
      ensures Valid() && Readable() == old(Readable())[len..] && buffer == old(buffer)
      ensures PrependableBytes() == if len < |old(Readable())| then old(readerIndex) + len else CHEAP_PREPEND
    {
      if len < ReadableBytes() {
        readerIndex := readerIndex + len;
      } else {
        RetrieveAll();
      }
    }

    method RetrieveAsString(len: nat) returns (result: Bytes)
      requires Valid() && len <= ReadableBytes()
      modifies this
      ensures Valid() && result + Readable() == old(Readable()) && |result| == len
    {
      result := buffer[readerIndex..readerIndex + len];
      ghost var bytes := Readable();
      assert result == bytes[..len];
      Retrieve(len);
      assert bytes == bytes[..len] + bytes[len..];
    }

    /** Compaction happens exactly when the free bytes at both ends suffice together. */
    method MakeSpace(len: nat)
      requires Valid() && WritableBytes() < len
      modifies this
      ensures Valid() && Readable() == old(Readable()) && WritableBytes() >= len
      ensures old(WritableBytes() + readerIndex) < len + CHEAP_PREPEND ==>
                readerIndex == old(readerIndex) && |buffer| == old(writerIndex) + len
      ensures old(WritableBytes() + readerIndex) >= len + CHEAP_PREPEND ==>
                && CHEAP_PREPEND < old(readerIndex)
                && readerIndex == CHEAP_PREPEND && |buffer| == old(|buffer|)
    {
      if WritableBytes() + PrependableBytes() < len + CHEAP_PREPEND {
        buffer := buffer + seq(writerIndex + len - |buffer|, _ => 0);
      } else {
        assert CHEAP_PREPEND < readerIndex;
        var readable := ReadableBytes();
        ghost var bytes := Readable();
        buffer := buffer[..CHEAP_PREPEND] + buffer[readerIndex..writerIndex] + buffer[CHEAP_PREPEND + readable..];
        readerIndex := CHEAP_PREPEND;
        writerIndex := readerIndex + readable;
        assert buffer[readerIndex..writerIndex] == bytes;
        assert readable == ReadableBytes();
      }
    }

    method EnsureWritableBytes(len: nat)
      requires Valid()
      modifies this
      ensures Valid() && Readable() == old(Readable()) && WritableBytes() >= len
      ensures old(WritableBytes()) >= len ==> buffer == old(buffer) && readerIndex == old(readerIndex)
      ensures old(readerIndex) <= CHEAP_PREPEND ==> readerIndex == old(readerIndex)
    {
      if WritableBytes() < len {
        MakeSpace(len);
      }
      assert WritableBytes() >= len;
    }

    /** FIFO append. */
    method Append(data: Bytes)
      requires Valid()
      modifies this
      ensures Valid() && Readable() == old(Readable()) + data
      ensures old(WritableBytes()) >= |data| ==>
                readerIndex == old(readerIndex) && WritableBytes() == old(WritableBytes()) - |data|
    {
      EnsureWritableBytes(|data|);
      ghost var before := Readable();
      CopyAfter(buffer, readerIndex, writerIndex, data);
      buffer := buffer[..writerIndex] + data + buffer[writerIndex + |data|..];
      writerIndex := writerIndex + |data|;
      assert buffer[readerIndex..writerIndex] == before + data;
    }

    /** Front push, into the room before the readable bytes. */
    method Prepend(data: Bytes)
      requires Valid() && |data| <= PrependableBytes()
      modifies this
      ensures Valid() && Readable() == data + old(Readable())
      ensures PrependableBytes() == old(PrependableBytes()) - |data|
    {
      ghost var before := Readable();
      readerIndex := readerIndex - |data|;
      CopyBefore(buffer, readerIndex, writerIndex, data);
      buffer := buffer[..readerIndex] + data + buffer[readerIndex + |data|..];
      assert buffer[readerIndex..writerIndex] == data + before;
    }

    method AppendInt32(x: int)
      requires Valid() && IsInt32(x)
      modifies this
      ensures Valid() && Readable() == old(Readable()) + Encode32(x)
    {
      Append(Encode32(x));
    }

    method PrependInt32(x: int)
      requires Valid() && IsInt32(x) && PrependableBytes() >= 4
      modifies this
      ensures Valid() && Readable() == Encode32(x) + old(Readable())
    {
      Prepend(Encode32(x));
    }

    method PeekInt32() returns (x: int)
      requires Valid() && ReadableBytes() >= 4
      ensures x == Decode32(Readable()[..4])
    {
      x := Decode32(buffer[readerIndex..readerIndex + 4]);
      assert buffer[readerIndex..readerIndex + 4] == Readable()[..4];
    }

    /** Reads back what AppendInt32 or PrependInt32 put in front, and removes exactly that. */
    method ReadInt32() returns (x: int)
      requires Valid() && ReadableBytes() >= 4
      modifies this
      ensures Valid() && IsInt32(x) && Encode32(x) + Readable() == old(Readable())
      ensures Value(old(Readable())[..4]) == if x >= 0 then x else x + 0x1_0000_0000
    {
      x := PeekInt32();
      Int32Injective(Readable()[..4]);
      NetworkOrder32(x);
      Retrieve(4);
    }

    method AppendInt8(x: int)
      requires Valid() && IsInt8(x)
      modifies this
      ensures Valid() && Readable() == old(Readable()) + [Encode8(x)]
    {
      Append([Encode8(x)]);
    }

    method ReadInt8() returns (x: int)
      requires Valid() && ReadableBytes() >= 1
      modifies this
      ensures Valid() && IsInt8(x) && [Encode8(x)] + Readable() == old(Readable())
    {
      x := Decode8(buffer[readerIndex]);
      Retrieve(1);
    }

    /** shrind: the same bytes in a fresh buffer with at least `reserve` writable. */
    method Shrind(reserve: nat)
      requires Valid()
      modifies this
      ensures Valid() && Readable() == old(Readable()) && WritableBytes() >= reserve
      ensures PrependableBytes() == CHEAP_PREPEND
    {
      var other := new Buffer();
      other.EnsureWritableBytes(ReadableBytes() + reserve);
      var bytes := Peek();
      other.Append(bytes);
      buffer, readerIndex, writerIndex := other.buffer, other.readerIndex, other.writerIndex;
    }

    /** The offset of the first CR LF among the readable bytes, or -1. */
    method FindCRLF() returns (offset: int)
      requires Valid()
      ensures offset == -1 || IsCRLF(Readable(), offset)
      ensures forall k | 0 <= k < (if offset == -1 then |Readable()| else offset) :: !IsCRLF(Readable(), k)
    {
      var i := 0;
      while i + 1 < ReadableBytes()
        invariant 0 <= i <= ReadableBytes()
        invariant forall k | 0 <= k < i :: !IsCRLF(Readable(), k)
      {
        if buffer[readerIndex + i] == 13 && buffer[readerIndex + i + 1] == 10 {
          return i;
        }
        i := i + 1;
      }
      offset := -1;
    }

    /** readFd: `n` bytes arrive (negative: error), scattered over the writable space and then
        extrabuf. readv delivers no more than the two areas hold, and the first one alone when it is
        as large as extrabuf. */
    method ReadFd(n: int, bytes: Bytes) returns (r: int)
      requires Valid()
      requires n >= 0 ==> |bytes| == n
      requires n <= WritableBytes() + (if WritableBytes() < EXTRA_BUF then EXTRA_BUF else 0)
      modifies this
      ensures Valid() && r == n
      ensures Readable() == old(Readable()) + (if n < 0 then [] else bytes)
    {
      var writable := WritableBytes();
      if n < 0 {
      } else if n <= writable {
        // the kernel fills the space behind writerIndex
        ghost var before := Readable();
        buffer := buffer[..writerIndex] + bytes + buffer[writerIndex + n..];
        writerIndex := writerIndex + n;
        assert Readable() == before + bytes;
      } else {
        ghost var before := Readable();
        buffer := buffer[..writerIndex] + bytes[..writable];
        var extrabuf := bytes[writable..];
        writerIndex := |buffer|;
        assert Readable() == before + bytes[..writable];
        Append(extrabuf);
        assert before + bytes[..writable] + bytes[writable..] == before + bytes;
      }
      r := n;
    }
  }

  predicate IsCRLF(s: Bytes, k: int) { 0 <= k < |s| - 1 && s[k] == 13 && s[k + 1] == 10 }
}

/** makeSpace and append with net/Buffer.h:289-290 exactly as written. */
module BufferAsWritten {
  import opened Buffers

  datatype Buf = Buf(buffer: Bytes, readerIndex: nat, writerIndex: nat)

  /** The run of a function whose asserts are checked. */
  datatype Outcome = Done(buf: Buf) | AssertFails

  predicate Valid(b: Buf) { CHEAP_PREPEND <= |b.buffer| && b.readerIndex <= b.writerIndex <= |b.buffer| }

  function Readable(b: Buf): Bytes
    requires Valid(b)
  {
    b.buffer[b.readerIndex..b.writerIndex]
  }

  /** The branch of makeSpace that moves the readable bytes to the front. */
  predicate Compacts(b: Buf, len: nat)
    requires Valid(b)
  {
    |b.buffer| - b.writerIndex + b.readerIndex >= len + CHEAP_PREPEND
  }

  function MakeSpace(b: Buf, len: nat): Outcome
    requires Valid(b)
  {
    if !Compacts(b, len) then
      var size := b.writerIndex + len;
      Done(b.(buffer := if size <= |b.buffer| then b.buffer[..size]
                        else b.buffer + seq(size - |b.buffer|, _ => 0)))
    else if !(CHEAP_PREPEND < b.readerIndex) then AssertFails
    else
      var readable := b.writerIndex - b.readerIndex;
      var moved := b.buffer[..CHEAP_PREPEND] + Readable(b) + b.buffer[CHEAP_PREPEND + readable..];
      var reader := CHEAP_PREPEND;
      var writer := reader + (b.writerIndex - reader);   // readableBytes() after readerIndex_ has moved
      if readable == writer - reader then Done(Buf(moved, reader, writer)) else AssertFails
  }

  function Append(b: Buf, data: Bytes): Outcome
    requires Valid(b)
  {
    var space := if |b.buffer| - b.writerIndex < |data| then MakeSpace(b, |data|) else Done(b);
    if space.AssertFails? || !(|space.buf.buffer| - space.buf.writerIndex >= |data|) then AssertFails
    else
      var s := space.buf;
      Done(Buf(s.buffer[..s.writerIndex] + data + s.buffer[s.writerIndex + |data|..],
               s.readerIndex, s.writerIndex + |data|))
  }

  /** Whenever makeSpace compacts, line 290 leaves writerIndex_ where it was and line 291 fails. */
  lemma CompactionAlwaysFails(b: Buf, len: nat)
    requires Valid(b) && |b.buffer| - b.writerIndex < len
    ensures MakeSpace(b, len).AssertFails? <==> Compacts(b, len)
    ensures Compacts(b, len) ==> CHEAP_PREPEND < b.readerIndex
  {
  }

  /** append meets its FIFO contract exactly when it does not have to compact. */
  lemma AppendExactly(b: Buf, data: Bytes)
    requires Valid(b)
    ensures var r := Append(b, data);
            if |b.buffer| - b.writerIndex < |data| && Compacts(b, |data|) then r.AssertFails?
            else r.Done? && Valid(r.buf) && Readable(r.buf) == Readable(b) + data
  {
    if |b.buffer| - b.writerIndex >= |data| || !Compacts(b, |data|) {
      var s := if |b.buffer| - b.writerIndex < |data| then MakeSpace(b, |data|).buf else b;
      assert Readable(s) == Readable(b);
      var r := Append(b, data).buf;
      assert r.buffer[r.readerIndex..r.writerIndex] == s.buffer[s.readerIndex..s.writerIndex] + data;
    }
  }

  /** A buffer that fails: 600 bytes appended, 599 retrieved, 600 more to append. */
  lemma CompactionWitness()
    ensures var b := Buf(seq(1032, _ => 0), 607, 608);
            Valid(b) && Append(b, seq(600, _ => 0)).AssertFails?
  {
  }
}
