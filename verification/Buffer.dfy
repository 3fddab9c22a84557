/** The byte buffer of a connection (include/Buffer.h, src/Buffer.cc): a vector with a reader and a writer
    index, compacted in place or grown when space runs out. It is a FIFO of bytes, and it is small. */
module Buffers {

  newtype byte = x: int | 0 <= x < 256

  const CHEAP_PREPEND: nat := 8
  const EXTRA_BUFFER: nat := 65536

  /** The indexes of a buffer without its bytes. */
  datatype Geometry = Geometry(size: nat, reader: nat, writer: nat) {
    /** An empty buffer always has its indexes back at the start. */
    predicate Sound() {
      CHEAP_PREPEND <= reader <= writer <= size && (reader == writer ==> reader == CHEAP_PREPEND)
    }
    function Readable(): int { writer - reader }
    function Writable(): int { size - writer }
  }

  function Created(initialSize: nat): Geometry {
    Geometry(CHEAP_PREPEND + initialSize, CHEAP_PREPEND, CHEAP_PREPEND)
  }

  function Retrieved(g: Geometry, len: nat): Geometry
    requires g.Sound()
  {
    if len < g.Readable() then g.(reader := g.reader + len) else Geometry(g.size, CHEAP_PREPEND, CHEAP_PREPEND)
  }

  /** `makeSpace`: grow at the end if even all the free space is too little, else move the bytes down. */
  function SpaceMade(g: Geometry, len: nat): Geometry
    requires g.Sound()
  {
    if g.Writable() + g.reader < len + CHEAP_PREPEND then g.(size := g.writer + len)
    else Geometry(g.size, CHEAP_PREPEND, CHEAP_PREPEND + g.Readable())
  }

  function MadeWritable(g: Geometry, len: nat): Geometry
    requires g.Sound()
  {
    if g.Writable() < len then SpaceMade(g, len) else g
  }

  function Appended(g: Geometry, len: nat): Geometry
    requires g.Sound()
  {
    var h := MadeWritable(g, len);
    h.(writer := h.writer + len)
  }

  /** What one `readv` can deliver at most: the writable space, plus the stack buffer when that is small. */
  function ReadCapacity(g: Geometry): int {
    if g.Writable() < EXTRA_BUFFER then g.Writable() + EXTRA_BUFFER else g.Writable()
  }

  function Filled(g: Geometry, n: nat): Geometry
    requires g.Sound()
  {
    if n <= g.Writable() then g.(writer := g.writer + n)
    else Appended(g.(writer := g.size), n - g.Writable())
  }

  /** Space is made only as needed: the bytes are kept, the vector never shrinks, room for `len` appears,
      and compaction moves the bytes strictly to the left. */
  lemma SpaceMadeIsRight(g: Geometry, len: nat)
    requires g.Sound() && g.Writable() < len
    ensures var h := SpaceMade(g, len);
            && h.Sound() && h.Readable() == g.Readable() && h.Writable() >= len && h.size >= g.size
            && (h.size == g.size ==> h.reader == CHEAP_PREPEND < g.reader)
  {
  }

  // ---------------------------------------------------------------------------
  // Histories

  datatype Op = Append(data: seq<byte>) | Retrieve(len: nat) | Read(delivered: seq<byte>)

  /** The FIFO that a buffer stands for. */
  function Fifo(s: seq<byte>, op: Op): seq<byte> {
    match op
    case Append(data) => s + data
    case Retrieve(len) => if len < |s| then s[len..] else []
    case Read(delivered) => s + delivered
  }

  function FifoRun(s: seq<byte>, ops: seq<Op>): seq<byte>
    decreases |ops|
  {
    if ops == [] then s else FifoRun(Fifo(s, ops[0]), ops[1..])
  }

  function Moved(g: Geometry, op: Op): (h: Geometry)
    requires g.Sound()
    ensures h.Sound()
  {
    match op
    case Append(data) => Appended(g, |data|)
    case Retrieve(len) => Retrieved(g, len)
    case Read(delivered) => Filled(g, |delivered|)
  }

  function MovedRun(g: Geometry, ops: seq<Op>): (h: Geometry)
    requires g.Sound()
    ensures h.Sound()
    decreases |ops|
  {
    if ops == [] then g else MovedRun(Moved(g, ops[0]), ops[1..])
  }

  /** The largest number of readable bytes at any point of a history. */
  ghost function Peak(g: Geometry, ops: seq<Op>): int
    requires g.Sound()
    decreases |ops|
  {
    if ops == [] then g.Readable() else Max(g.Readable(), Peak(Moved(g, ops[0]), ops[1..]))
  }

  function Max(a: int, b: int): int { if a < b then b else a }

  lemma GrowthBound(g: Geometry, len: nat)
    requires g.Sound()
    ensures var h := Appended(g, len);
            g.size <= h.size <= Max(g.size, Max(9, 2 * h.Readable() + 6)) && h.Readable() == g.Readable() + len
  {
  }

  lemma MovedBound(g: Geometry, op: Op)
    requires g.Sound()
    ensures var h := Moved(g, op); g.size <= h.size <= Max(g.size, Max(9, 2 * h.Readable() + 6))
  {
    match op
    case Append(data) => GrowthBound(g, |data|);
    case Retrieve(len) =>
    case Read(delivered) =>
      if |delivered| > g.Writable() { GrowthBound(g.(writer := g.size), |delivered| - g.Writable()); }
  }

  lemma {:induction false} PeakBoundsEnd(g: Geometry, ops: seq<Op>)
    requires g.Sound()
    ensures MovedRun(g, ops).Readable() <= Peak(g, ops) && g.Readable() <= Peak(g, ops)
    decreases |ops|
  {
    hide Moved;
    if ops != [] { PeakBoundsEnd(Moved(g, ops[0]), ops[1..]); }
  }

  /** Over any history the vector never shrinks, and never exceeds its initial size or twice the largest
      number of readable bytes plus six (nine if that is more), whichever is larger. */
  lemma {:induction false} SpaceBound(g: Geometry, ops: seq<Op>)
    requires g.Sound()
    ensures g.size <= MovedRun(g, ops).size <= Max(g.size, Max(9, 2 * Peak(g, ops) + 6))
    decreases |ops|
  {
    hide Moved;
    if ops != [] {
      var h := Moved(g, ops[0]);
      MovedBound(g, ops[0]);
      PeakBoundsEnd(h, ops[1..]);
      SpaceBound(h, ops[1..]);
    }
  }

  /** The bound is attained beyond the initial size, whatever that is. For a size of at least one: fill, take all
      but one byte, fill again. For size zero: one byte. */
  lemma SpaceBoundIsTight(full: seq<byte>, x: byte)
    ensures var g := Created(|full|);
            var ops := if |full| == 0 then [Append([x])] else [Append(full), Retrieve(|full| - 1), Append(full)];
            MovedRun(g, ops).size == Max(9, 2 * Peak(g, ops) + 6) > g.size
  {
    hide MovedRun, Peak, Appended, Retrieved;
    var n, g := |full|, Created(|full|);
    if n == 0 {
      OneByte();
      OneOp(g, Append([x]));
    } else {
      FillsAgain(n);
      ThreeOps(g, Append(full), Retrieve(n - 1), Append(full));
    }
  }

  lemma OneByte()
    ensures Appended(Created(0), 1) == Geometry(CHEAP_PREPEND + 1, CHEAP_PREPEND, CHEAP_PREPEND + 1)
  {
  }

  lemma FillsAgain(n: nat)
    requires n >= 1
    ensures var full := Geometry(CHEAP_PREPEND + n, CHEAP_PREPEND, CHEAP_PREPEND + n);
            var taken := Geometry(CHEAP_PREPEND + n, CHEAP_PREPEND + n - 1, CHEAP_PREPEND + n);
            && Created(n).Sound() && full.Sound() && taken.Sound()
            && Appended(Created(n), n) == full
            && Retrieved(full, n - 1) == taken
            && Appended(taken, n) == Geometry(CHEAP_PREPEND + 2 * n, CHEAP_PREPEND + n - 1, CHEAP_PREPEND + 2 * n)
  {
  }

  lemma ThreeOps(g: Geometry, a: Op, b: Op, c: Op)
    requires g.Sound()
    ensures var g1 := Moved(g, a); var g2 := Moved(g1, b); var g3 := Moved(g2, c);
            && MovedRun(g, [a, b, c]) == g3
            && Peak(g, [a, b, c]) == Max(g.Readable(), Max(g1.Readable(), Max(g2.Readable(), g3.Readable())))
  {
    hide Moved;
    var g1 := Moved(g, a);
    OneOp(Moved(g1, b), c);
    assert [b, c][1..] == [c] && [a, b, c][1..] == [b, c];
  }

  lemma OneOp(g: Geometry, op: Op)
    requires g.Sound()
    ensures MovedRun(g, [op]) == Moved(g, op) && Peak(g, [op]) == Max(g.Readable(), Moved(g, op).Readable())
  {
    assert [op][1..] == [];
    assert MovedRun(Moved(g, op), []) == Moved(g, op) && Peak(Moved(g, op), []) == Moved(g, op).Readable();
  }

  // ---------------------------------------------------------------------------
  // The buffer itself

  /** What a read or write system call did. */
  datatype Transfer = Done(bytes: seq<byte>) | Failed

  class Buffer {
    var buffer: array<byte>
    var readerIndex: nat
    var writerIndex: nat

    ghost function Shape(): Geometry
      reads this
    {
      Geometry(buffer.Length, readerIndex, writerIndex)
    }

    ghost predicate Valid()
      reads this
    {
      Shape().Sound()
    }

    ghost function Contents(): seq<byte>
      requires Valid()
      reads this, buffer
    {
      buffer[readerIndex..writerIndex]
    }

    constructor (initialSize: nat)
      ensures Valid() && fresh(buffer) && Shape() == Created(initialSize) && Contents() == []
    {
      buffer := new byte[CHEAP_PREPEND + initialSize](_ => 0);
      readerIndex := CHEAP_PREPEND;
      writerIndex := CHEAP_PREPEND;
    }

    function ReadableBytes(): (n: nat)
      requires Valid()
      reads this, buffer
      ensures n == |Contents()|
    {
      writerIndex - readerIndex
    }

    method Retrieve(len: nat)
      requires Valid()
      modifies this`readerIndex, this`writerIndex
      ensures Valid() && Shape() == Retrieved(old(Shape()), len)
      ensures Contents() == Fifo(old(Contents()), Op.Retrieve(len))
    {
      if len < writerIndex - readerIndex {
        readerIndex := readerIndex + len;
      } else {
        RetrieveAll();
      }
    }

    method RetrieveAll()
      requires Valid()
      modifies this`readerIndex, this`writerIndex
      ensures Valid() && Shape() == Geometry(buffer.Length, CHEAP_PREPEND, CHEAP_PREPEND) && Contents() == []
    {
      readerIndex := CHEAP_PREPEND;
      writerIndex := CHEAP_PREPEND;
    }

    method RetrieveAsString(len: nat) returns (result: seq<byte>)
      requires Valid() && len <= |Contents()|
      modifies this`readerIndex, this`writerIndex
      ensures Valid() && Shape() == Retrieved(old(Shape()), len)
      ensures result + Contents() == old(Contents()) && |result| == len
    {
      result := buffer[readerIndex..readerIndex + len];
      Retrieve(len);
    }

    /** `std::vector::resize` to a larger size. */
    method Resize(size: nat)
      requires Valid() && buffer.Length <= size
      modifies this`buffer
      ensures Valid() && fresh(buffer) && Shape() == old(Shape()).(size := size)
      ensures Contents() == old(Contents())
    {
      var grown := new byte[size](_ => 0);
      var i := 0;
      while i < buffer.Length
        invariant 0 <= i <= buffer.Length
        invariant forall k :: 0 <= k < i ==> grown[k] == buffer[k]
        modifies grown
      {
        grown[i] := buffer[i];
        i := i + 1;
      }
      buffer := grown;
    }

    /** Moves the readable bytes to the front, byte by byte and front to back, over themselves. */
    method Compact()
      requires Valid() && readerIndex > CHEAP_PREPEND
      modifies this`readerIndex, this`writerIndex, buffer
      ensures Valid() && buffer == old(buffer)
      ensures Shape() == Geometry(buffer.Length, CHEAP_PREPEND, CHEAP_PREPEND + old(Shape()).Readable())
      ensures Contents() == old(Contents())
    {
      var readable := writerIndex - readerIndex;
      var i := 0;
      while i < readable
        invariant 0 <= i <= readable
        invariant buffer[CHEAP_PREPEND..CHEAP_PREPEND + i] == old(Contents())[..i]
        invariant forall k :: readerIndex + i <= k < buffer.Length ==> buffer[k] == old(buffer[k])
        modifies buffer
      {
        buffer[CHEAP_PREPEND + i] := buffer[readerIndex + i];
        i := i + 1;
      }
      readerIndex := CHEAP_PREPEND;
      writerIndex := readerIndex + readable;
    }

    method MakeSpace(len: nat)
      requires Valid() && Shape().Writable() < len
      modifies this, buffer
      ensures Valid() && (buffer == old(buffer) || fresh(buffer))
      ensures Shape() == SpaceMade(old(Shape()), len) && Contents() == old(Contents())
    {
      SpaceMadeIsRight(Shape(), len);
      if buffer.Length - writerIndex + readerIndex < len + CHEAP_PREPEND {
        Resize(writerIndex + len);
      } else {
        Compact();
      }
    }

    method EnsureWritableBytes(len: nat)
      requires Valid()
      modifies this, buffer
      ensures Valid() && (buffer == old(buffer) || fresh(buffer))
      ensures Shape() == MadeWritable(old(Shape()), len) && Shape().Writable() >= len
      ensures Contents() == old(Contents())
    {
      if buffer.Length - writerIndex < len {
        SpaceMadeIsRight(Shape(), len);
        MakeSpace(len);
      }
    }

    /** Stores bytes behind the readable ones, in space that is there. */
    method Store(data: seq<byte>)
      requires Valid() && Shape().Writable() >= |data|
      modifies this`writerIndex, buffer
      ensures Valid() && Shape() == old(Shape()).(writer := old(writerIndex) + |data|)
      ensures Contents() == old(Contents()) + data
    {
      var i := 0;
      while i < |data|
        invariant 0 <= i <= |data|
        invariant buffer[writerIndex..writerIndex + i] == data[..i]
        invariant forall k :: 0 <= k < writerIndex ==> buffer[k] == old(buffer[k])
        modifies buffer
      {
        buffer[writerIndex + i] := data[i];
        i := i + 1;
      }
      writerIndex := writerIndex + |data|;
      assert Contents() == old(Contents()) + data;
    }

    method Append(data: seq<byte>)
      requires Valid()
      modifies this, buffer
      ensures Valid() && (buffer == old(buffer) || fresh(buffer))
      ensures Shape() == Appended(old(Shape()), |data|) && Contents() == old(Contents()) + data
    {
      EnsureWritableBytes(|data|);
      Store(data);
    }

    /** One scatter read: the kernel fills the writable space first, the rest lands in a stack buffer
        and is appended afterwards. */
    method ReadFd(delivered: Transfer) returns (n: int)
      requires Valid() && (delivered.Done? ==> |delivered.bytes| <= ReadCapacity(Shape()))
      modifies this, buffer
      ensures Valid() && (buffer == old(buffer) || fresh(buffer))
      ensures delivered.Failed? ==> n < 0 && Shape() == old(Shape()) && Contents() == old(Contents())
      ensures delivered.Done? ==>
                && n == |delivered.bytes| && Shape() == Filled(old(Shape()), n)
                && Contents() == old(Contents()) + delivered.bytes
    {
      if delivered.Failed? {
        return -1;
      }
      n := |delivered.bytes|;
      var writable := buffer.Length - writerIndex;
      if n <= writable {
        Store(delivered.bytes);
      } else {
        Store(delivered.bytes[..writable]);
        Append(delivered.bytes[writable..]);
        assert delivered.bytes[..writable] + delivered.bytes[writable..] == delivered.bytes;
      }
    }

    /** Any history of operations: the buffer is the FIFO, its vector stays within the bound. */
    method Use(ops: seq<Op>)
      requires Valid()
      requires forall i :: 0 <= i < |ops| && ops[i].Read? ==>
                 |ops[i].delivered| <= ReadCapacity(MovedRun(Shape(), ops[..i]))
      modifies this, buffer
      ensures Valid() && (buffer == old(buffer) || fresh(buffer))
      ensures Contents() == FifoRun(old(Contents()), ops) && Shape() == MovedRun(old(Shape()), ops)
      ensures buffer.Length <= Max(old(buffer.Length), Max(9, 2 * Peak(old(Shape()), ops) + 6))
    {
      hide MovedRun, FifoRun, Peak;
      ghost var shape, contents := Shape(), Contents();
      RunsNothing(shape, contents);
      assert ops[..0] == [];
      var i := 0;
      while i < |ops|
        invariant 0 <= i <= |ops| && Valid() && (buffer == old(buffer) || fresh(buffer))
        invariant Shape() == MovedRun(shape, ops[..i]) && Contents() == FifoRun(contents, ops[..i])
      {
        match ops[i] {
          case Append(data) => Append(data);
          case Retrieve(len) => Retrieve(len);
          case Read(delivered) => var _ := ReadFd(Done(delivered));
        }
        RunsExtend(shape, contents, ops[..i], ops[i]);
        assert ops[..i + 1] == ops[..i] + [ops[i]];
        i := i + 1;
      }
      assert ops[..i] == ops;
      SpaceBound(shape, ops);
    }
  }

  lemma RunsNothing(g: Geometry, s: seq<byte>)
    requires g.Sound()
    ensures MovedRun(g, []) == g && FifoRun(s, []) == s
  {
  }

  lemma {:induction false} RunsExtend(g: Geometry, s: seq<byte>, ops: seq<Op>, op: Op)
    requires g.Sound()
    ensures MovedRun(g, ops + [op]) == Moved(MovedRun(g, ops), op)
    ensures FifoRun(s, ops + [op]) == Fifo(FifoRun(s, ops), op)
    decreases |ops|
  {
    if ops == [] {
      assert ops + [op] == [op] && [op][1..] == [];
      assert MovedRun(Moved(g, op), []) == Moved(g, op) && FifoRun(Fifo(s, op), []) == Fifo(s, op);
    } else {
      assert (ops + [op])[0] == ops[0] && (ops + [op])[1..] == ops[1..] + [op];
      RunsExtend(Moved(g, ops[0]), Fifo(s, ops[0]), ops[1..], op);
    }
  }
}
