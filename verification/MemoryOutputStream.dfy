/** MemoryOutputStream: a growing buffer that behaves as a plain sequence of bytes with a cursor. */
module MemoryOutputStream {
  import opened Basics
  import opened BigEndian
  import opened MemoryBlock

  // ---- The plain model ----

  /** What has been written, and the write position in it. */
  datatype Text = Text(bytes: seq<Byte>, cursor: nat)

  predicate ValidText(t: Text) {
    t.cursor <= |t.bytes|
  }

  /** Overwrites from the cursor on, extending the text where needed. */
  function WriteAt(t: Text, b: seq<Byte>): (r: Text)
    requires ValidText(t)
    ensures ValidText(r) && |r.bytes| == if t.cursor + |b| > |t.bytes| then t.cursor + |b| else |t.bytes|
  {
    var end := t.cursor + |b|;
    Text(t.bytes[..t.cursor] + b + (if end < |t.bytes| then t.bytes[end..] else []), end)
  }

  function Seek(t: Text, pos: int): (r: Text)
    requires ValidText(t)
    ensures ValidText(r)
  {
    if pos > |t.bytes| then t else t.(cursor := if pos < 0 then 0 else pos)
  }

  /** Writing in two pieces is writing once. */
  lemma WriteTwice(t: Text, a: seq<Byte>, b: seq<Byte>)
    requires ValidText(t)
    ensures WriteAt(WriteAt(t, a), b) == WriteAt(t, a + b)
  {
    var middle, both := WriteAt(t, a), t.cursor + |a| + |b|;
    assert middle.bytes[..middle.cursor] == t.bytes[..t.cursor] + a;
    if both < |t.bytes| {
      assert middle.bytes[both..] == t.bytes[both..];
    }
    assert t.bytes[..t.cursor] + a + b == t.bytes[..t.cursor] + (a + b);
  }

  lemma WriteNothing(t: Text)
    requires ValidText(t)
    ensures WriteAt(t, []) == t
  {
    assert t.bytes[..t.cursor] + [] + t.bytes[t.cursor..] == t.bytes;
  }

  /** A text that agrees with b where b was written and with t elsewhere is t overwritten by b. */
  lemma Overwritten(t: Text, b: seq<Byte>, bytes: seq<Byte>)
    requires ValidText(t) && |bytes| == |WriteAt(t, b).bytes|
    requires forall i :: t.cursor <= i < t.cursor + |b| ==> bytes[i] == b[i - t.cursor]
    requires forall i :: 0 <= i < |t.bytes| && !(t.cursor <= i < t.cursor + |b|) ==> bytes[i] == t.bytes[i]
    ensures bytes == WriteAt(t, b).bytes
  {
  }

  /** A write of the piece when the storage holds cap bytes, or grows: one that does not fit is lost. */
  function Offer(t: Text, cap: Option<nat>, piece: seq<Byte>): (r: Text)
    requires ValidText(t)
    ensures ValidText(r)
  {
    if cap.Some? && t.cursor + |piece| > cap.value then t else WriteAt(t, piece)
  }

  /** One call of write, writeRepeatedByte or setPosition. */
  datatype Op = Put(bytes: seq<Byte>) | Repeat(byte: Byte, count: nat) | MoveTo(pos: int)

  function Repeated(byte: Byte, count: nat): (r: seq<Byte>)
    ensures |r| == count && forall i :: 0 <= i < count ==> r[i] == byte
  {
    seq(count, i => byte)
  }

  /** What the call writes, at the cursor. */
  function Written(op: Op): seq<Byte> {
    match op
    case Put(bytes) => bytes
    case Repeat(byte, count) => Repeated(byte, count)
    case MoveTo(_) => []
  }

  function Step(t: Text, cap: Option<nat>, op: Op): (r: Text)
    requires ValidText(t)
    ensures ValidText(r)
  {
    if op.MoveTo? then Seek(t, op.pos) else Offer(t, cap, Written(op))
  }

  function Replay(t: Text, cap: Option<nat>, ops: seq<Op>): (r: Text)
    requires ValidText(t)
    ensures ValidText(r)
  {
    if ops == [] then t else Step(Replay(t, cap, ops[..|ops| - 1]), cap, ops[|ops| - 1])
  }

  /** Some call of the run writes over byte i. */
  predicate Covered(t: Text, cap: Option<nat>, ops: seq<Op>, i: nat)
    requires ValidText(t)
  {
    ops != [] &&
    var n := |ops| - 1;
    Covered(t, cap, ops[..n], i) || Hits(Replay(t, cap, ops[..n]), cap, ops[n], i)
  }

  /** The call writes, and byte i is among those written. */
  predicate Hits(t: Text, cap: Option<nat>, op: Op, i: nat) {
    var end := t.cursor + |Written(op)|;
    t.cursor <= i < end && (cap.Some? ==> end <= cap.value)
  }

  lemma StepStays(t: Text, cap: Option<nat>, op: Op, i: nat)
    requires ValidText(t) && i < |t.bytes|
    ensures |t.bytes| <= |Step(t, cap, op).bytes|
    ensures !Hits(t, cap, op, i) ==> Step(t, cap, op).bytes[i] == t.bytes[i]
  {
  }

  /** Over any run the text never shrinks, and a byte stays as it was until a call writes over it. */
  lemma {:induction false} BytesStay(t: Text, cap: Option<nat>, ops: seq<Op>, i: nat)
    requires ValidText(t) && i < |t.bytes|
    ensures |t.bytes| <= |Replay(t, cap, ops).bytes|
    ensures !Covered(t, cap, ops, i) ==> Replay(t, cap, ops).bytes[i] == t.bytes[i]
  {
    if ops == [] {
    } else {
      var n := |ops| - 1;
      BytesStay(t, cap, ops[..n], i);
      StepStays(Replay(t, cap, ops[..n]), cap, ops[n], i);
    }
  }

  // ---- Growth ----

  const MAX_INT: int := 0x7fff_ffff
  const MEGABYTE: int := 1024 * 1024

  /** The cast of an unsigned 32-bit number to an int. */
  function ToInt32(x: nat): (r: int)
    requires x < 0x1_0000_0000
    ensures -0x8000_0000 <= r < 0x8000_0000 && r % 0x1_0000_0000 == x
  {
    if x <= MAX_INT then x else x - 0x1_0000_0000
  }

  function Raw(needed: nat): nat {
    needed + Lesser(needed / 2, MEGABYTE) + 32
  }

  /** The capacity asked of ensureSize: the mask ~31u keeps only 32 bits, and the parameter is an int. */
  function Grown(needed: nat): int {
    var raw := Raw(needed);
    ToInt32((raw - raw % 32) % 0x1_0000_0000)
  }

  predicate Growable(needed: nat) {
    Raw(needed) <= MAX_INT
  }

  /** The growth formula gives enough room exactly up to a limit just below 2 GiB; there the new capacity
      is a multiple of 32 strictly above what is needed. */
  lemma GrowthExact(needed: nat)
    ensures Growable(needed) <==> Grown(needed) > needed
    ensures Growable(needed) ==> Grown(needed) % 32 == 0
  {
    var raw := Raw(needed);
    var rounded := raw - raw % 32;
    assert rounded % 32 == 0;
    if raw < 0x1_0000_0000 {
      assert rounded % 0x1_0000_0000 == rounded;
    } else {
      assert Grown(needed) <= MAX_INT < needed;
    }
  }

  /** How much is added: half of what is needed but at most a megabyte, and up to 32 bytes more to reach a
      multiple of 32. */
  lemma GrowthAmount(needed: nat)
    requires Growable(needed)
    ensures var extra := if needed <= 2097153 then needed / 2 else 1048576;
      needed + extra < Grown(needed) <= needed + extra + 32
  {
    var raw := Raw(needed);
    assert (raw - raw % 32) % 0x1_0000_0000 == raw - raw % 32;
  }

  /** The room a write to a block is asked to have is exactly what it takes for the block, after it was made
      larger if it was, to be long enough for the bytes. */
  lemma RoomExact(length: nat, needed: nat)
    ensures needed <= length || Growable(needed) <==>
      needed <= if needed >= length then Larger(length, Grown(needed)) else length
  {
    GrowthExact(needed);
  }

  /** No call of the run needs more than a block of that length has or can grow to. */
  predicate Fits(t: Text, ops: seq<Op>, length: nat)
    requires ValidText(t)
  {
    ops == [] ||
    var n := |ops| - 1;
    var end := Replay(t, None, ops[..n]).cursor + |Written(ops[n])|;
    Fits(t, ops[..n], length) && (end <= length || Growable(end))
  }

  // ---- The stream ----

  /** blockToUse is the stream's own block or a block given to it; else a fixed buffer is written. */
  datatype Target = Internal(block: MemoryBlock) | Given(block: MemoryBlock) | Fixed(buffer: array<Byte>)

  class MemoryOutputStream {
    const target: Target
    var position: nat
    var size: nat

    constructor (initialSize: int)
      ensures Valid() && target.Internal? && fresh(Footprint()) && Value() == Text([], 0)
    {
      var block := new MemoryBlock();
      target := Internal(block);
      position, size := 0, 0;
      new;
      block.SetSize(initialSize, false);
    }

    constructor OnBlock(block: MemoryBlock, appendToExistingBlockContent: bool)
      ensures Valid() && target == Given(block)
      ensures appendToExistingBlockContent ==> Value() == Text(block.Contents(), block.data.Length)
      ensures !appendToExistingBlockContent ==> Value() == Text([], 0)
    {
      target := Given(block);
      position := if appendToExistingBlockContent then block.data.Length else 0;
      size := if appendToExistingBlockContent then block.data.Length else 0;
    }

    constructor OnBuffer(destBuffer: array<Byte>)
      ensures Valid() && target == Fixed(destBuffer) && Value() == Text([], 0)
    {
      target := Fixed(destBuffer);
      position, size := 0, 0;
    }

    function Blocks(): set<object> {
      if target.Fixed? then {} else {target.block}
    }

    function Storage(): array<Byte>
      reads Blocks()
    {
      if target.Fixed? then target.buffer else target.block.data
    }

    function Footprint(): set<object>
      reads Blocks()
    {
      Blocks() + {Storage()}
    }

    predicate Valid()
      reads this, Blocks()
    {
      position <= size <= Storage().Length
    }

    function Value(): Text
      requires Valid()
      reads this, Blocks(), Footprint()
    {
      Text(Storage()[..size], position)
    }

    /** What the stream can hold at most; a block grows. */
    function Cap(): Option<nat>
      reads Blocks()
    {
      if target.Fixed? then Some(Storage().Length) else None
    }

    /** The next n bytes fit in the storage, or it can grow for them. */
    predicate Room(n: nat)
      reads this, Blocks()
    {
      target.Fixed? || Holds(position + n)
    }

    /** The storage can take bytes up to end, growing if it is a block. */
    predicate Holds(end: nat)
      reads Blocks()
    {
      end <= Storage().Length || (!target.Fixed? && Growable(end))
    }

    /** Makes room, moves the position, and returns where to write; -1 for a fixed buffer that is full. */
    method PrepareToWrite(numBytes: nat) returns (at: int)
      requires Valid() && Room(numBytes)
      modifies this, Blocks()
      ensures Valid() && (Storage() == old(Storage()) || fresh(Storage()))
      ensures at == if target.Fixed? && old(position) + numBytes > Storage().Length then -1 else old(position)
      ensures at < 0 ==> position == old(position) && size == old(size) && Storage() == old(Storage())
      ensures at >= 0 ==>
        position == old(position) + numBytes && size == if old(size) < position then position else old(size)
      ensures Storage()[..old(size)] == old(Storage()[..size])
      ensures old(Storage().Length) <= Storage().Length
      ensures Storage().Length ==
        if target.Fixed? || old(position) + numBytes < old(Storage().Length) then old(Storage().Length)
        else Larger(old(Storage().Length), Grown(old(position) + numBytes))
    {
      var storageNeeded := position + numBytes;
      GrowthExact(storageNeeded);
      if !target.Fixed? {
        if storageNeeded >= target.block.data.Length {
          target.block.EnsureSize(Grown(storageNeeded), false);
        }
      } else if storageNeeded > target.buffer.Length {
        return -1;
      }
      at := position;
      position := position + numBytes;
      size := if size < position then position else size;
    }

    method Write(buffer: seq<Byte>) returns (ok: bool)
      requires Valid() && Room(|buffer|)
      modifies this, Footprint()
      ensures Valid() && (Storage() == old(Storage()) || fresh(Storage()))
      ensures ok <==> buffer == [] || !target.Fixed? || old(position) + |buffer| <= Storage().Length
      ensures Value() == if ok then WriteAt(old(Value()), buffer) else old(Value())
      ensures old(Storage().Length) <= Storage().Length
    {
      if |buffer| == 0 {
        return true;
      }
      var dest := PrepareToWrite(|buffer|);
      if dest >= 0 {
        forall i | 0 <= i < |buffer| {
          Storage()[dest + i] := buffer[i];
        }
        Overwritten(old(Value()), buffer, Storage()[..size]);
        return true;
      }
      return false;
    }

    method WriteRepeatedByte(byte: Byte, howMany: nat) returns (ok: bool)
      requires Valid() && Room(howMany)
      modifies this, Footprint()
      ensures Valid() && (Storage() == old(Storage()) || fresh(Storage()))
      ensures ok <==> howMany == 0 || !target.Fixed? || old(position) + howMany <= Storage().Length
      ensures Value() == if ok then WriteAt(old(Value()), Repeated(byte, howMany)) else old(Value())
      ensures old(Storage().Length) <= Storage().Length
    {
      if howMany == 0 {
        return true;
      }
      var dest := PrepareToWrite(howMany);
      if dest >= 0 {
        forall i | 0 <= i < howMany {
          Storage()[dest + i] := byte;
        }
        Overwritten(old(Value()), Repeated(byte, howMany), Storage()[..size]);
        return true;
      }
      return false;
    }

    method SetPosition(newPosition: int) returns (ok: bool)
      requires Valid()
      modifies this`position
      ensures Valid() && (ok <==> newPosition <= size)
      ensures Value() == Seek(old(Value()), newPosition)
      ensures position == if newPosition > size then old(position) else if newPosition < 0 then 0 else newPosition
    {
      if newPosition <= size {
        if newPosition < 0 {
          position := 0;
        } else {
          position := Lesser(newPosition, size);
        }
        return true;
      }
      return false;
    }

    method Reset()
      modifies this
      ensures Valid() && Value() == Text([], 0)
    {
      position, size := 0, 0;
    }

    /** The size passed on is an int, so the cast makes a request for 2 GiB or more a smaller one. */
    method Preallocate(bytesToPreallocate: nat)
      requires Valid()
      modifies Blocks()
      ensures Valid() && Value() == old(Value()) && (Storage() == old(Storage()) || fresh(Storage()))
      ensures Storage().Length == if target.Fixed? then old(Storage().Length)
        else Larger(old(Storage().Length), ToInt32((bytesToPreallocate + 1) % 0x1_0000_0000))
      ensures !target.Fixed? && bytesToPreallocate < MAX_INT ==>
        Storage().Length == Larger(old(Storage().Length), bytesToPreallocate + 1)
    {
      if !target.Fixed? {
        target.block.EnsureSize(ToInt32((bytesToPreallocate + 1) % 0x1_0000_0000), false);
      }
    }

    /** Trims a given block to what was written; run by flush and by the destructor. */
    method TrimExternalBlockSize()
      requires Valid()
      modifies Blocks()
      ensures Valid() && Value() == old(Value()) && (Storage() == old(Storage()) || fresh(Storage()))
      ensures target.Given? ==> target.block.Contents() == Value().bytes
      ensures !target.Given? ==> Storage() == old(Storage())
    {
      if target.Given? {
        target.block.SetSize(size, false);
      }
    }

    /** One call of a run. */
    method Perform(op: Op)
      requires Valid() && Room(|Written(op)|)
      modifies this, Footprint()
      ensures Valid() && (Storage() == old(Storage()) || fresh(Storage()))
      ensures old(Storage().Length) <= Storage().Length
      ensures Value() == Step(old(Value()), Cap(), op)
    {
      WriteNothing(Value());
      match op
      case Put(bytes) =>
        var ok := Write(bytes);
      case Repeat(byte, count) =>
        var ok := WriteRepeatedByte(byte, count);
      case MoveTo(pos) =>
        var ok := SetPosition(pos);
    }

    /** Any run of calls, as long as on a block every call fits, has the effect of the plain model; how often
        and when the block was reallocated does not show. */
    method PerformAll(ops: seq<Op>)
      requires Valid() && (target.Fixed? || Fits(Value(), ops, Storage().Length))
      modifies this, Footprint()
      ensures Valid() && (Storage() == old(Storage()) || fresh(Storage()))
      ensures old(Storage().Length) <= Storage().Length
      ensures Value() == Replay(old(Value()), Cap(), ops)
      decreases |ops|
    {
      if ops == [] {
      } else {
        PerformAll(ops[..|ops| - 1]);
        Perform(ops[|ops| - 1]);
      }
    }
  }
}
