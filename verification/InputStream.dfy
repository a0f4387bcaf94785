/** MemoryInputStream, the chunk loop that copies a source into a stream, and readIntoMemoryBlock, which
    goes through all three stream classes. */
module InputStream {
  import opened Basics
  import opened BigEndian
  import opened MemoryBlock
  import opened MemoryOutputStream

  const MAX_INT64: int := 0x7fff_ffff_ffff_ffff
  const CHUNK: int := 8192

  /** What read takes for the number of bytes left: their number cast to an int, and none when that is
      negative. */
  function Usable(left: nat): (k: nat)
    ensures k <= left && k <= MAX_INT && (left <= MAX_INT ==> k == left)
  {
    Larger(0, ToInt32(left % 0x1_0000_0000))
  }

  /** A number of 2^31 and more below 2^32 is negative as an int, and any other loses its multiples of 2^32. */
  lemma UsableExactly(left: nat)
    ensures var low := left % 0x1_0000_0000; Usable(left) == if low <= 0x7fff_ffff then low else 0
  {
  }

  /** Bytes that have been read leave that many fewer. */
  lemma UsableAfter(left: nat, k: nat)
    requires k <= Usable(left)
    ensures Usable(left - k) == Usable(left) - k
  {
    if Usable(left) == 0 {
    } else {
      var low := left % 0x1_0000_0000;
      assert left - k == left / 0x1_0000_0000 * 0x1_0000_0000 + (low - k);
      assert (left - k) % 0x1_0000_0000 == low - k;
    }
  }

  class MemoryInputStream {
    const data: seq<Byte>
    var position: nat

    constructor (sourceData: seq<Byte>)
      ensures Valid() && Rest() == sourceData && data == sourceData
    {
      data, position := sourceData, 0;
    }

    predicate Valid()
      reads this
    {
      position <= |data|
    }

    function Rest(): seq<Byte>
      requires Valid()
      reads this
    {
      data[position..]
    }

    /** Copies the next bytes into the buffer; 0 at the end of the data. */
    method Read(buffer: array<Byte>, howMany: int) returns (num: int)
      requires Valid() && howMany <= buffer.Length
      modifies this`position, buffer
      ensures Valid() && num == if howMany <= 0 then 0 else Lesser(howMany, Usable(|old(Rest())|))
      ensures buffer[..num] == old(Rest())[..num] && Rest() == old(Rest())[num..]
      ensures position == old(position) + num && Usable(|Rest()|) == Usable(|old(Rest())|) - num
    {
      num := Lesser(howMany, ToInt32((|data| - position) % 0x1_0000_0000));
      if num <= 0 {
        return 0;
      }
      UsableAfter(|data| - position, num);
      forall i | 0 <= i < num {
        buffer[i] := data[position + i];
      }
      position := position + num;
    }

    method IsExhausted() returns (exhausted: bool)
      requires Valid()
      ensures exhausted <==> Rest() == []
    {
      exhausted := position >= |data|;
    }

    method SetPosition(pos: int)
      modifies this`position
      requires Valid()
      ensures Valid() && position == if pos < 0 then 0 else Lesser(pos, |data|)
    {
      if pos < 0 {
        position := 0;
      } else {
        position := if |data| < pos then |data| else pos;
      }
    }

    /** The InputStream readers of a T of n bytes: zero when fewer bytes are to be had, and those are used up. */
    method ReadInteger(n: nat, signed: bool) returns (value: int)
      requires Valid() && n > 0
      modifies this`position
      ensures Valid() && (value, Rest()) == Take(old(Rest()), n, signed)
      ensures n <= Usable(|old(Rest())|) ==>
        value == Decode(old(Rest())[..n], signed) && position == old(position) + n
      ensures n > Usable(|old(Rest())|) ==> value == 0 && position == old(position) + Usable(|old(Rest())|)
    {
      var temp := new Byte[n];
      var num := Read(temp, n);
      if num == n {
        var v := ReadBigEndian(temp, 0, n);
        assert temp[0..n] == temp[..n];
        value := if signed then ToSigned(v, n) else v;
      } else {
        value := 0;
      }
    }
  }

  /** What reading n bytes off the front of b gives, and what it leaves. */
  function Take(b: seq<Byte>, n: nat, signed: bool): (int, seq<Byte>) {
    if n <= Usable(|b|) then (Decode(b[..n], signed), b[n..]) else (0, b[Usable(|b|)..])
  }

  /** How many bytes a transfer of n moves when some are available; a negative n asks for all. */
  function Moved(n: int, available: nat): (k: nat)
    ensures k <= available
  {
    if n < 0 || n > available then available else n
  }

  // ---- Writing piece by piece ----

  /** Offering b in pieces of 8192 bytes; the result of each write is ignored. */
  function Pour(t: Text, cap: Option<nat>, b: seq<Byte>): (r: Text)
    requires ValidText(t)
    ensures ValidText(r)
    decreases |b|
  {
    if b == [] then t else
      var n := Lesser(CHUNK, |b|);
      Pour(Offer(t, cap, b[..n]), cap, b[n..])
  }

  /** What of b gets into a storage with room for so many bytes more: a full piece that does not fit is
      lost, and so are the full ones behind it, but the last shorter piece may still fit. */
  function Kept(b: seq<Byte>, room: nat): (r: seq<Byte>)
    ensures |r| <= room && |r| <= |b|
  {
    if |b| < CHUNK then
      if |b| <= room then b else []
    else if CHUNK <= room then
      b[..CHUNK] + Kept(b[CHUNK..], room - CHUNK)
    else
      Kept(b[CHUNK..], room)
  }

  lemma {:induction false} KeptAll(b: seq<Byte>, room: nat)
    requires |b| <= room
    ensures Kept(b, room) == b
  {
    if |b| < CHUNK {
    } else {
      KeptAll(b[CHUNK..], room - CHUNK);
      assert b[..CHUNK] + b[CHUNK..] == b;
    }
  }

  /** A storage that grows takes all of b. */
  lemma {:induction false} PourGrowing(t: Text, b: seq<Byte>)
    requires ValidText(t)
    ensures Pour(t, None, b) == WriteAt(t, b)
    decreases |b|
  {
    if b == [] {
      WriteNothing(t);
    } else {
      var n := Lesser(CHUNK, |b|);
      PourGrowing(WriteAt(t, b[..n]), b[n..]);
      WriteTwice(t, b[..n], b[n..]);
      assert b[..n] + b[n..] == b;
    }
  }

  /** A last, shorter piece. */
  lemma PourPiece(t: Text, cap: Option<nat>, b: seq<Byte>)
    requires ValidText(t) && 0 < |b| <= CHUNK
    ensures Pour(t, cap, b) == Offer(t, cap, b)
  {
    assert b[..|b|] == b && b[|b|..] == [];
  }

  lemma PourShort(t: Text, cap: nat, b: seq<Byte>)
    requires ValidText(t) && t.cursor <= cap && |b| < CHUNK
    ensures Pour(t, Some(cap), b) == WriteAt(t, Kept(b, cap - t.cursor))
  {
    if b == [] || t.cursor + |b| > cap {
      WriteNothing(t);
    }
    if b != [] {
      PourPiece(t, Some(cap), b);
    }
  }

  /** A fixed storage takes what Kept says. */
  lemma {:induction false} PourFixed(t: Text, cap: nat, b: seq<Byte>)
    requires ValidText(t) && t.cursor <= cap
    ensures Pour(t, Some(cap), b) == WriteAt(t, Kept(b, cap - t.cursor))
    decreases |b|
  {
    if |b| < CHUNK {
      PourShort(t, cap, b);
    } else {
      var first, rest := b[..CHUNK], b[CHUNK..];
      PourFixed(Offer(t, Some(cap), first), cap, rest);
      if t.cursor + CHUNK <= cap {
        WriteTwice(t, first, Kept(rest, cap - t.cursor - CHUNK));
      }
    }
  }

  lemma WriteEqual(t: Text, a: seq<Byte>, b: seq<Byte>)
    requires ValidText(t) && |a| != |b|
    ensures WriteAt(t, a) != WriteAt(t, b)
  {
    assert WriteAt(t, a).cursor == t.cursor + |a| && WriteAt(t, b).cursor == t.cursor + |b|;
  }

  /** The full pieces of 8192 bytes that get in, and what is left behind the full pieces if that gets in too. */
  function Arriving(b: seq<Byte>, room: nat): seq<Byte> {
    var full := |b| / 8192;
    var fitting := Lesser(full, room / 8192);
    b[..8192 * fitting] + if |b| - 8192 * full <= room - 8192 * fitting then b[8192 * full..] else []
  }

  lemma ArrivingMore(b: seq<Byte>, room: nat)
    requires |b| >= 8192
    ensures room >= 8192 ==> Arriving(b, room) == b[..8192] + Arriving(b[8192..], room - 8192)
    ensures room < 8192 ==> Arriving(b, room) == Arriving(b[8192..], room)
  {
    var rest, full := b[8192..], |b| / 8192;
    assert |rest| / 8192 == full - 1;
    assert rest[8192 * (full - 1)..] == b[8192 * full..];
    if room >= 8192 {
      var fitting := Lesser(full, room / 8192);
      assert (room - 8192) / 8192 == room / 8192 - 1;
      assert b[..8192] + rest[..8192 * (fitting - 1)] == b[..8192 * fitting];
    }
  }

  /** What gets in, piece by piece, is a number of whole pieces of 8192 bytes from the front, as many as fit, and
      the shorter last piece if it fits behind them. */
  lemma {:induction false} KeptClosed(b: seq<Byte>, room: nat)
    ensures Kept(b, room) == Arriving(b, room)
  {
    if |b| < 8192 {
    } else {
      ArrivingMore(b, room);
      KeptClosed(b[8192..], if room >= 8192 then room - 8192 else room);
    }
  }

  /** Everything arrives if and only if everything fits. */
  lemma PourExactly(t: Text, cap: Option<nat>, b: seq<Byte>)
    requires ValidText(t) && (cap.Some? ==> t.cursor <= cap.value)
    ensures Pour(t, cap, b) == WriteAt(t, b) <==> cap.None? || t.cursor + |b| <= cap.value
  {
    if cap.None? {
      PourGrowing(t, b);
    } else {
      var room := cap.value - t.cursor;
      PourFixed(t, cap.value, b);
      if |b| <= room {
        KeptAll(b, room);
      } else {
        WriteEqual(t, Kept(b, room), b);
      }
    }
  }

  /** OutputStream::writeShortBigEndian and its siblings. */
  method WriteInteger(out: MemoryOutputStream, item: Item) returns (ok: bool)
    requires out.Valid() && ValidItem(item) && out.Room(item.width)
    modifies out, out.Footprint()
    ensures out.Valid() && (out.Storage() == old(out.Storage()) || fresh(out.Storage()))
    ensures old(out.Storage().Length) <= out.Storage().Length
    ensures ok <==> !out.target.Fixed? || old(out.position) + item.width <= out.Storage().Length
    ensures out.Value() == Offer(old(out.Value()), out.Cap(), Encode(item))
    ensures out.Value() == if ok then WriteAt(old(out.Value()), Encode(item)) else old(out.Value())
    ensures out.target.Fixed? || out.position == old(out.position) + item.width
  {
    var temp := new Byte[item.width];
    WriteBigEndian(temp, 0, item.width, if item.signed then ToUnsigned(item.value, item.width) else item.value);
    assert temp[..] == Encode(item);
    ok := out.Write(temp[..]);
  }

  lemma RoomForLess(a: nat, b: nat)
    requires a <= b && Growable(b)
    ensures Growable(a)
  {
  }

  /** One turn of the copy loop; the result of the write is ignored. */
  method CopyChunk(out: MemoryOutputStream, source: MemoryInputStream, remaining: int, ghost end: nat)
    returns (num: int)
    requires out.Valid() && source.Valid() && remaining > 0
    requires var k := Lesser(remaining, Usable(|source.Rest()|));
      k == 0 || out.target.Fixed? || (out.Holds(end) && out.position + k <= end)
    modifies out, out.Footprint(), source
    ensures out.Valid() && source.Valid() && (out.Storage() == old(out.Storage()) || fresh(out.Storage()))
    ensures old(out.Storage().Length) <= out.Storage().Length
    ensures num == Lesser(Lesser(remaining, CHUNK), Usable(|old(source.Rest())|))
    ensures Usable(|source.Rest()|) == Usable(|old(source.Rest())|) - num
    ensures out.Value() == Offer(old(out.Value()), out.Cap(), old(source.Rest())[..num])
    ensures source.Rest() == old(source.Rest())[num..]
  {
    var buffer := new Byte[CHUNK];
    num := source.Read(buffer, Lesser(remaining, CHUNK));
    WriteNothing(out.Value());
    if num > 0 {
      if Growable(end) && !out.target.Fixed? {
        RoomForLess(out.position + num, end);
      }
      var ok := out.Write(buffer[..num]);
    }
  }

  /** The copy loop has moved k of total bytes and can go on. */
  ghost predicate Copied(out: MemoryOutputStream, source: MemoryInputStream, start: nat, rest: seq<Byte>, k: int,
                         total: nat)
    reads out, out.Blocks(), source
  {
    && out.Valid() && source.Valid()
    && 0 <= k <= total <= |rest|
    && source.Rest() == rest[k..]
    && (out.target.Fixed? || out.position == start + k)
    && (total == 0 || out.target.Fixed? || out.Holds(start + total))
  }

  lemma NextPiece(t: Text, cap: Option<nat>, rest: seq<Byte>, k: nat, num: nat, total: nat)
    requires ValidText(t) && k <= total <= |rest| && num == Lesser(CHUNK, total - k)
    ensures Pour(t, cap, rest[k..total]) == Pour(Offer(t, cap, rest[k..][..num]), cap, rest[k + num..total])
  {
    WriteNothing(t);
    assert rest[k..total][..num] == rest[k..][..num] && rest[k..total][num..] == rest[k + num..total];
  }

  lemma DropTwice(b: seq<Byte>, k: nat, num: nat)
    requires k + num <= |b|
    ensures b[k..][num..] == b[k + num..]
  {
  }

  /** A turn of the loop moves on by its chunk. */
  method CopyNext(out: MemoryOutputStream, source: MemoryInputStream, remaining: int,
                  ghost start: nat, ghost rest: seq<Byte>, k: int, ghost total: nat) returns (num: int, now: int)
    requires Copied(out, source, start, rest, k, total)
    requires remaining > 0 && Lesser(remaining, Usable(|source.Rest()|)) == total - k
    modifies out, out.Footprint(), source
    ensures num == Lesser(CHUNK, total - k) && now == k + num && Copied(out, source, start, rest, now, total)
    ensures out.Value() == Offer(old(out.Value()), out.Cap(), rest[k..][..num])
    ensures Usable(|source.Rest()|) == Usable(|old(source.Rest())|) - num
    ensures out.Storage() == old(out.Storage()) || fresh(out.Storage())
  {
    num := CopyChunk(out, source, remaining, start + total);
    now := k + num;
    DropTwice(rest, k, num);
  }

  /** The same turn, seen from what is still to be poured. */
  method CopyOn(out: MemoryOutputStream, source: MemoryInputStream, remaining: int,
                ghost start: nat, ghost rest: seq<Byte>, k: int, ghost total: nat) returns (num: int, now: int)
    requires Copied(out, source, start, rest, k, total)
    requires remaining > 0 && Lesser(remaining, Usable(|source.Rest()|)) == total - k
    modifies out, out.Footprint(), source
    ensures num == Lesser(CHUNK, total - k) && now == k + num && Copied(out, source, start, rest, now, total)
    ensures Pour(out.Value(), out.Cap(), rest[now..total]) == old(Pour(out.Value(), out.Cap(), rest[k..total]))
    ensures out.Cap() == old(out.Cap()) && Usable(|source.Rest()|) == Usable(|old(source.Rest())|) - num
    ensures out.Storage() == old(out.Storage()) || fresh(out.Storage())
  {
    NextPiece(out.Value(), out.Cap(), rest, k, Lesser(CHUNK, total - k), total);
    num, now := CopyNext(out, source, remaining, start, rest, k, total);
  }

  /** The copy loop, through a buffer of 8192 bytes. */
  method CopyLoop(out: MemoryOutputStream, source: MemoryInputStream, numBytesToWrite: int,
                  ghost rest: seq<Byte>, ghost total: nat, ghost all: Text) returns (numWritten: int)
    requires Copied(out, source, out.position, rest, 0, total) && total == Moved(numBytesToWrite, Usable(|rest|))
    requires all == Pour(out.Value(), out.Cap(), rest[0..total])
    modifies out, out.Footprint(), source
    ensures Copied(out, source, old(out.position), rest, total, total) && numWritten == total
    ensures out.Value() == all
    ensures out.Storage() == old(out.Storage()) || fresh(out.Storage())
  {
    ghost var start := out.position;
    var remaining := if numBytesToWrite < 0 then MAX_INT64 else numBytesToWrite;
    numWritten := 0;
    while remaining > 0
      invariant Copied(out, source, start, rest, numWritten, total)
      invariant Pour(out.Value(), out.Cap(), rest[numWritten..total]) == all
      invariant remaining >= 0 && Lesser(remaining, Usable(|source.Rest()|)) == total - numWritten
      invariant out.Storage() == old(out.Storage()) || fresh(out.Storage())
      decreases remaining
    {
      var num;
      num, numWritten := CopyOn(out, source, remaining, start, rest, numWritten, total);
      if num <= 0 {
        break;
      }
      remaining := remaining - num;
    }
  }

  /** OutputStream::writeFromInputStream. It counts the bytes it took from the source, also those of a piece
      that did not fit in a fixed buffer. */
  method CopyChunks(out: MemoryOutputStream, source: MemoryInputStream, numBytesToWrite: int) returns (numWritten: int)
    requires out.Valid() && source.Valid()
    requires var k := Moved(numBytesToWrite, Usable(|source.Rest()|));
      k == 0 || out.target.Fixed? || out.Holds(out.position + k)
    modifies out, out.Footprint(), source
    ensures out.Valid() && source.Valid() && (out.Storage() == old(out.Storage()) || fresh(out.Storage()))
    ensures numWritten == Moved(numBytesToWrite, Usable(|old(source.Rest())|))
    ensures 0 <= numBytesToWrite <= Usable(|old(source.Rest())|) ==> numWritten == numBytesToWrite
    ensures numBytesToWrite < 0 || Usable(|old(source.Rest())|) <= numBytesToWrite ==>
      numWritten == Usable(|old(source.Rest())|)
    ensures out.Value() == Pour(old(out.Value()), out.Cap(), old(source.Rest())[..numWritten])
    ensures source.Rest() == old(source.Rest())[numWritten..]
  {
    ghost var rest := source.Rest();
    ghost var total := Moved(numBytesToWrite, Usable(|rest|));
    assert rest[0..total] == rest[..total];
    numWritten := CopyLoop(out, source, numBytesToWrite, rest, total, Pour(out.Value(), out.Cap(), rest[..total]));
  }

  /** MemoryOutputStream::writeFromInputStream: preallocates what it knows will come, then copies. */
  method WriteFromInputStream(out: MemoryOutputStream, source: MemoryInputStream, maxNumBytesToWrite: int)
    returns (numWritten: int)
    requires out.Valid() && source.Valid()
    requires out.target.Fixed? || out.Storage().Length + Moved(maxNumBytesToWrite, |source.Rest()|) < MAX_INT
    modifies out, out.Footprint(), source
    ensures out.Valid() && source.Valid() && (out.Storage() == old(out.Storage()) || fresh(out.Storage()))
    ensures numWritten == Moved(maxNumBytesToWrite, Usable(|old(source.Rest())|))
    ensures 0 <= maxNumBytesToWrite <= Usable(|old(source.Rest())|) ==> numWritten == maxNumBytesToWrite
    ensures maxNumBytesToWrite < 0 || Usable(|old(source.Rest())|) <= maxNumBytesToWrite ==>
      numWritten == Usable(|old(source.Rest())|)
    ensures out.Value() == Pour(old(out.Value()), out.Cap(), old(source.Rest())[..numWritten])
    ensures source.Rest() == old(source.Rest())[numWritten..]
  {
    var toWrite := maxNumBytesToWrite;
    var availableData := |source.data| - source.position;
    if availableData > 0 {
      if toWrite > availableData || toWrite < 0 {
        toWrite := availableData;
      }
      if !out.target.Fixed? {
        out.Preallocate(out.target.block.data.Length + toWrite);
      }
    }
    numWritten := CopyChunks(out, source, toWrite);
  }

  /** InputStream::readIntoMemoryBlock: the block is its old contents and then the next n bytes of the
      source, or all that can be had; the source moves past them, and their number is returned. The temporary
      stream's destructor trims the block. */
  method ReadIntoMemoryBlock(source: MemoryInputStream, block: MemoryBlock, numBytes: int) returns (numRead: int)
    requires source.Valid()
    requires block.data.Length + Moved(numBytes, |source.Rest()|) < MAX_INT
    modifies block, block.data, source
    ensures source.Valid()
    ensures numRead == Moved(numBytes, Usable(|old(source.Rest())|))
    ensures 0 <= numBytes <= Usable(|old(source.Rest())|) ==> numRead == numBytes
    ensures numBytes < 0 || Usable(|old(source.Rest())|) <= numBytes ==> numRead == Usable(|old(source.Rest())|)
    ensures block.Contents() == old(block.Contents()) + old(source.Rest())[..numRead]
    ensures source.Rest() == old(source.Rest())[numRead..]
  {
    ghost var bytes := block.Contents();
    ghost var rest := source.Rest();
    var mo := new MemoryOutputStream.OnBlock(block, true);
    numRead := WriteFromInputStream(mo, source, numBytes);
    PourGrowing(Text(bytes, |bytes|), rest[..numRead]);
    mo.TrimExternalBlockSize();
  }

  // ---- Lists of values ----

  /** The text after each value has been written with WriteInteger. */
  function WriteAll(t: Text, cap: Option<nat>, items: seq<Item>): (r: Text)
    requires ValidText(t) && forall i :: 0 <= i < |items| ==> ValidItem(items[i])
    ensures ValidText(r)
  {
    if items == [] then t else Offer(WriteAll(t, cap, items[..|items| - 1]), cap, Encode(items[|items| - 1]))
  }

  lemma HoldsLess(out: MemoryOutputStream, a: nat, b: nat)
    requires a <= b && (out.target.Fixed? || out.Holds(b))
    ensures out.target.Fixed? || out.Holds(a)
  {
    if Growable(b) {
      RoomForLess(a, b);
    }
  }

  lemma EncodeAllLast(items: seq<Item>)
    requires items != [] && forall i :: 0 <= i < |items| ==> ValidItem(items[i])
    ensures |EncodeAll(items)| == |EncodeAll(items[..|items| - 1])| + items[|items| - 1].width
  {
    DecodeEncode(items[|items| - 1]);
  }

  /** A list of calls of WriteInteger; on a fixed buffer those that do not fit leave it alone. */
  method WriteIntegers(out: MemoryOutputStream, items: seq<Item>)
    requires out.Valid() && forall i :: 0 <= i < |items| ==> ValidItem(items[i])
    requires out.target.Fixed? || out.Holds(out.position + |EncodeAll(items)|)
    modifies out, out.Footprint()
    ensures out.Valid() && (out.Storage() == old(out.Storage()) || fresh(out.Storage()))
    ensures old(out.Storage().Length) <= out.Storage().Length
    ensures out.Value() == WriteAll(old(out.Value()), out.Cap(), items)
    ensures out.target.Fixed? || out.position == old(out.position) + |EncodeAll(items)|
    decreases |items|
  {
    if items == [] {
    } else {
      var n := |items| - 1;
      ghost var end := out.position + |EncodeAll(items)|;
      EncodeAllLast(items);
      HoldsLess(out, out.position + |EncodeAll(items[..n])|, end);
      WriteIntegers(out, items[..n]);
      assert out.target.Fixed? || (out.position + items[n].width == end && out.Holds(end));
      var ok := WriteInteger(out, items[n]);
    }
  }

  /** A list of calls of ReadInteger of the shapes of items: what DecodeAll finds if there is enough, and
      otherwise some zeros. */
  method ReadIntegers(source: MemoryInputStream, items: seq<Item>) returns (values: seq<int>)
    requires source.Valid() && |source.Rest()| <= MAX_INT && forall i :: 0 <= i < |items| ==> ValidItem(items[i])
    modifies source
    ensures source.Valid() && |values| == |items|
    ensures match DecodeAll(old(source.Rest()), items)
      case Some((found, left)) => values == found && source.Rest() == left
      case None => 0 in values
    decreases |items|
  {
    if items == [] {
      return [];
    }
    var first := source.ReadInteger(items[0].width, items[0].signed);
    var others := ReadIntegers(source, items[1..]);
    values := [first] + others;
  }

  lemma {:induction false} WriteAllAppends(bytes: seq<Byte>, items: seq<Item>)
    requires forall i :: 0 <= i < |items| ==> ValidItem(items[i])
    ensures var all := bytes + EncodeAll(items); WriteAll(Text(bytes, |bytes|), None, items) == Text(all, |all|)
  {
    if items == [] {
      assert bytes + [] == bytes;
    } else {
      var n := |items| - 1;
      WriteAllAppends(bytes, items[..n]);
      var before, last := bytes + EncodeAll(items[..n]), Encode(items[n]);
      assert before[..|before|] + last + [] == bytes + (EncodeAll(items[..n]) + last);
    }
  }

  /** Values written to an empty stream read back from its bytes: the same values, in order, and nothing left. */
  lemma StreamRoundTrip(items: seq<Item>)
    requires forall i :: 0 <= i < |items| ==> ValidItem(items[i])
    ensures DecodeAll(WriteAll(Text([], 0), None, items).bytes, items) == Some((Values(items), []))
    ensures WriteAll(Text([], 0), None, items).bytes == EncodeAll(items)
  {
    var all := EncodeAll(items);
    AddNothing(all);
    WriteAllAppends([], items);
    assert WriteAll(Text([], 0), None, items).bytes == all;
    RoundTrip(items, []);
  }

  /** The same with the calls of the two streams. */
  method WriteThenRead(items: seq<Item>) returns (values: seq<int>, source: MemoryInputStream)
    requires (forall i :: 0 <= i < |items| ==> ValidItem(items[i])) && Growable(|EncodeAll(items)|)
    ensures values == Values(items)
    ensures fresh(source) && source.Valid() && source.Rest() == []
  {
    var out := new MemoryOutputStream(256);
    WriteIntegers(out, items);
    StreamRoundTrip(items);
    source := new MemoryInputStream(out.Value().bytes);
    values := ReadIntegers(source, items);
  }
}
