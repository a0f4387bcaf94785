/** Big-endian integers: the byte loops of big_endian.h and the cursors built on them. */
module BigEndian {
  import opened Basics

  type Byte = x: int | 0 <= x < 256

  function Pow256(n: nat): (p: int)
    ensures p >= 1
  {
    if n == 0 then 1 else 256 * Pow256(n - 1)
  }

  /** The n low bytes of u, most significant first. */
  function Bytes(u: nat, n: nat): (b: seq<Byte>)
    ensures |b| == n
  {
    if n == 0 then [] else Bytes(u / 256, n - 1) + [u % 256]
  }

  function Value(b: seq<Byte>): (u: nat)
    ensures u < Pow256(|b|)
  {
    if b == [] then 0 else 256 * Value(b[..|b| - 1]) + b[|b| - 1]
  }

  lemma {:induction false} ValueOfBytes(u: nat, n: nat)
    requires u < Pow256(n)
    ensures Value(Bytes(u, n)) == u
  {
    if n == 0 {
    } else {
      ValueOfBytes(u / 256, n - 1);
      assert Bytes(u, n)[..n - 1] == Bytes(u / 256, n - 1);
    }
  }

  lemma {:induction false} BytesOfValue(b: seq<Byte>)
    ensures Bytes(Value(b), |b|) == b
  {
    if b == [] {
    } else {
      var n := |b| - 1;
      BytesOfValue(b[..n]);
      assert Value(b) / 256 == Value(b[..n]) && Value(b) % 256 == b[n];
    }
  }

  lemma MovesUp(x: int, p: int)
    ensures 256 * (x * p) == x * (256 * p)
  {
  }

  /** The first byte is the most significant. */
  lemma {:induction false} MostSignificantFirst(b: seq<Byte>)
    requires b != []
    ensures Value(b) == b[0] * Pow256(|b| - 1) + Value(b[1..])
  {
    var n := |b| - 1;
    if n == 0 {
      assert b[..0] == [] && b[1..] == [];
    } else {
      MostSignificantFirst(b[..n]);
      assert b[1..][..n - 1] == b[..n][1..];
      MovesUp(b[0], Pow256(n - 1));
      assert Pow256(n) == 256 * Pow256(n - 1);
    }
  }

  // ---- Widths: a T of n bytes is its residue modulo 256^n ----

  predicate InSigned(v: int, n: nat) {
    -Pow256(n) <= 2 * v < Pow256(n)
  }

  function ToUnsigned(v: int, n: nat): (u: nat)
    requires InSigned(v, n)
    ensures u < Pow256(n)
  {
    if v < 0 then v + Pow256(n) else v
  }

  function ToSigned(u: nat, n: nat): (v: int)
    requires u < Pow256(n)
    ensures InSigned(v, n)
  {
    if 2 * u < Pow256(n) then u else u - Pow256(n)
  }

  lemma FourBytesPower()
    ensures Pow256(1) == 256 && Pow256(2) == 0x1_0000 && Pow256(3) == 0x100_0000 && Pow256(4) == 0x1_0000_0000
  {
  }

  /** An int of four bytes: its range and its two's complement. */
  lemma FourBytesSigned(v: int, u: nat)
    requires u < Pow256(4)
    ensures InSigned(v, 4) <==> -0x8000_0000 <= v <= 0x7fff_ffff
    ensures InSigned(v, 4) ==> ToUnsigned(v, 4) == if v >= 0 then v else v + 0x1_0000_0000
    ensures ToSigned(u, 4) == if u <= 0x7fff_ffff then u else u - 0x1_0000_0000
  {
    FourBytesPower();
  }

  /** Assigning a char to a T: a byte of 128 or more is negative and fills the upper bytes with ones. */
  function Widened(b: Byte, n: nat): int
    requires n > 0
  {
    if b < 128 then b else b + Pow256(n) - 256
  }

  /** What the read loop holds after i of the n bytes: their value, with the sign extension of the first
      byte still above them. At i == n nothing is left of it. */
  function Partial(b: seq<Byte>, i: nat, n: nat): int
    requires 0 < i <= |b|
  {
    Value(b[..i]) + if b[0] < 128 then 0 else Pow256(n) - Pow256(i)
  }

  lemma {:induction false} PowGrows(i: nat, n: nat)
    requires i <= n
    ensures Pow256(i) <= Pow256(n)
  {
    if i == n {
    } else {
      PowGrows(i, n - 1);
    }
  }

  lemma MultipleIsFar(d: int, p: int)
    requires p > 0
    ensures d >= 1 ==> d * p >= p
    ensures d <= -1 ==> d * p <= -p
  {
    if d >= 1 {
      assert d * p == p + (d - 1) * p;
    }
    if d <= -1 {
      assert d * p == -p + (d + 1) * p;
    }
  }

  /** Euclid: a remainder in range is the remainder. */
  lemma RemainderIs(x: int, q: int, p: int, r: int)
    requires 0 <= r < p && x == q * p + r
    ensures x % p == r
  {
    var d := x / p - q;
    assert x == (x / p) * p + x % p;
    assert d * p == (x / p) * p - q * p;
    MultipleIsFar(d, p);
  }

  /** One turn of the read loop shifts left by eight, loses what passes the top, and takes the next byte. */
  lemma PartialStep(b: seq<Byte>, i: nat, n: nat)
    requires 0 < i < n && i < |b|
    ensures 0 <= Partial(b, i, n) < Pow256(n)
    ensures Partial(b, i + 1, n) == (256 * Partial(b, i, n)) % Pow256(n) + b[i]
  {
    var p := Pow256(n);
    PowGrows(i, n);
    PowGrows(i + 1, n);
    assert b[..i + 1][..i] == b[..i];
    var shifted := 256 * Value(b[..i]) + if b[0] < 128 then 0 else p - Pow256(i + 1);
    assert Value(b[..i + 1]) == 256 * Value(b[..i]) + b[i];
    RemainderIs(256 * Partial(b, i, n), if b[0] < 128 then 0 else 255, p, shifted);
  }

  /** ReadBigEndian for a T of n bytes: the value of the bytes, whatever the sign of the first. */
  method ReadBigEndian(buf: array<Byte>, at: nat, n: nat) returns (out: nat)
    requires 0 < n && at + n <= buf.Length
    ensures out == Value(buf[at..at + n])
  {
    ghost var b := buf[at..at + n];
    PowGrows(1, n);
    assert b[..1] == [buf[at]] && Value([buf[at]]) == buf[at];
    out := Widened(buf[at], n);
    for i := 1 to n
      invariant out == Partial(b, i, n)
    {
      PartialStep(b, i, n);
      out := (out * 256) % Pow256(n) + buf[at + i];
    }
    assert b[..n] == b;
  }

  /** WriteBigEndian for a T of n bytes, from the last byte back. */
  method WriteBigEndian(buf: array<Byte>, at: nat, n: nat, val: nat)
    requires at + n <= buf.Length
    modifies buf
    ensures buf[..] == old(buf[..at]) + Bytes(val, n) + old(buf[at + n..])
  {
    var rest := val;
    for i := 0 to n
      invariant buf[..at + n - i] == old(buf[..at + n - i])
      invariant Bytes(val, n) == Bytes(rest, n - i) + buf[at + n - i..at + n]
      invariant buf[at + n..] == old(buf[at + n..])
    {
      ghost var done := buf[at + n - i..at + n];
      buf[at + n - i - 1] := rest % 256;
      assert buf[at + n - i - 1..at + n] == [rest % 256] + done;
      rest := rest / 256;
    }
  }

  // ---- Cursors over a buffer ----

  /** BigEndianWriter; ptr and end are offsets into the buffer. */
  class BigEndianWriter {
    const buf: array<Byte>
    const end: nat
    var ptr: nat

    constructor (buf: array<Byte>, len: nat)
      requires len <= buf.Length
      ensures Valid() && this.buf == buf && end == len && ptr == 0
    {
      this.buf, end, ptr := buf, len, 0;
    }

    predicate Valid()
      reads this
    {
      ptr <= end <= buf.Length
    }

    method Skip(len: nat) returns (ok: bool)
      requires Valid()
      modifies this`ptr
      ensures Valid() && (ok <==> old(ptr) + len <= end) && ptr == old(ptr) + if ok then len else 0
    {
      if ptr + len > end {
        return false;
      }
      ptr := ptr + len;
      return true;
    }

    /** Write<T> for an unsigned T of n bytes: all of them, or nothing when they do not fit. */
    method Write(value: nat, n: nat) returns (ok: bool)
      requires Valid()
      modifies this`ptr, buf
      ensures Valid() && (ok <==> old(ptr) + n <= end) && ptr == old(ptr) + if ok then n else 0
      ensures buf[..ptr] == old(buf[..ptr]) + if ok then Bytes(value, n) else []
      ensures buf[ptr..] == old(buf[..])[ptr..]
    {
      if ptr + n > end {
        return false;
      }
      WriteBigEndian(buf, ptr, n, value);
      ptr := ptr + n;
      return true;
    }

    method WriteBytes(bytes: seq<Byte>) returns (ok: bool)
      requires Valid()
      modifies this`ptr, buf
      ensures Valid() && (ok <==> old(ptr) + |bytes| <= end) && ptr == old(ptr) + if ok then |bytes| else 0
      ensures buf[..ptr] == old(buf[..ptr]) + if ok then bytes else []
      ensures buf[ptr..] == old(buf[..])[ptr..]
    {
      if ptr + |bytes| > end {
        return false;
      }
      forall i | 0 <= i < |bytes| {
        buf[ptr + i] := bytes[i];
      }
      ptr := ptr + |bytes|;
      return true;
    }
  }

  /** BigEndianReader over the first len bytes of a buffer. */
  class BigEndianReader {
    const buf: array<Byte>
    const end: nat
    var ptr: nat

    constructor (buf: array<Byte>, len: nat)
      requires len <= buf.Length
      ensures Valid() && this.buf == buf && end == len && ptr == 0
    {
      this.buf, end, ptr := buf, len, 0;
    }

    predicate Valid()
      reads this
    {
      ptr <= end <= buf.Length
    }

    /** The bytes not yet read. */
    function Rest(): seq<Byte>
      requires Valid()
      reads this, buf
    {
      buf[ptr..end]
    }

    /** Read<T>: takes the next n bytes if they are there, else takes nothing. */
    method Read(n: nat) returns (ok: bool, value: nat)
      requires Valid() && n > 0
      modifies this`ptr
      ensures Valid() && (ok <==> n <= |old(Rest())|)
      ensures if ok then value == Value(old(Rest())[..n]) && Rest() == old(Rest())[n..] else Rest() == old(Rest())
    {
      if ptr + n > end {
        return false, 0;
      }
      value := ReadBigEndian(buf, ptr, n);
      assert buf[ptr..ptr + n] == Rest()[..n];
      ptr := ptr + n;
      return true, value;
    }
  }

  // ---- Lists of values ----

  /** A C integer: its width in bytes, its signedness and its value. */
  datatype Item = Item(width: nat, signed: bool, value: int)

  predicate ValidItem(x: Item) {
    x.width > 0 && if x.signed then InSigned(x.value, x.width) else 0 <= x.value < Pow256(x.width)
  }

  function Encode(x: Item): seq<Byte>
    requires ValidItem(x)
  {
    Bytes(if x.signed then ToUnsigned(x.value, x.width) else x.value, x.width)
  }

  /** What a read of the same width and signedness makes of the bytes. */
  function Decode(b: seq<Byte>, signed: bool): int {
    if signed then ToSigned(Value(b), |b|) else Value(b)
  }

  lemma DecodeEncode(x: Item)
    requires ValidItem(x)
    ensures |Encode(x)| == x.width && Decode(Encode(x), x.signed) == x.value
  {
    ValueOfBytes(if x.signed then ToUnsigned(x.value, x.width) else x.value, x.width);
  }

  lemma AddNothing(b: seq<Byte>)
    ensures [] + b == b && b + [] == b
  {
  }

  /** All values written one after another. */
  function EncodeAll(items: seq<Item>): seq<Byte>
    requires forall i :: 0 <= i < |items| ==> ValidItem(items[i])
  {
    if items == [] then [] else EncodeAll(items[..|items| - 1]) + Encode(items[|items| - 1])
  }

  /** Reading values of the shapes of items off the front of b; None when the bytes run out. */
  function DecodeAll(b: seq<Byte>, items: seq<Item>): Option<(seq<int>, seq<Byte>)> {
    if items == [] then Some(([], b))
    else if |b| < items[0].width then None
    else
      var first := Decode(b[..items[0].width], items[0].signed);
      match DecodeAll(b[items[0].width..], items[1..])
      case None => None
      case Some((rest, left)) => Some(([first] + rest, left))
  }

  function Values(items: seq<Item>): seq<int> {
    seq(|items|, i requires 0 <= i < |items| => items[i].value)
  }

  lemma {:induction false} EncodeAllFront(items: seq<Item>)
    requires items != [] && forall i :: 0 <= i < |items| ==> ValidItem(items[i])
    ensures EncodeAll(items) == Encode(items[0]) + EncodeAll(items[1..])
  {
    var n := |items| - 1;
    if n == 0 {
      assert items[..0] == [] && items[1..] == [];
      assert [] + Encode(items[0]) == Encode(items[0]) + [];
    } else {
      EncodeAllFront(items[..n]);
      assert items[..n][1..] == items[1..][..n - 1];
      assert (Encode(items[0]) + EncodeAll(items[1..][..n - 1])) + Encode(items[n])
        == Encode(items[0]) + (EncodeAll(items[1..][..n - 1]) + Encode(items[n]));
    }
  }

  /** Round trip: any list of signed and unsigned values of any widths, written one after another, reads
      back the same values in the same order and leaves the cursor exactly behind them. */
  lemma {:induction false} RoundTrip(items: seq<Item>, left: seq<Byte>)
    requires forall i :: 0 <= i < |items| ==> ValidItem(items[i])
    ensures DecodeAll(EncodeAll(items) + left, items) == Some((Values(items), left))
  {
    var b := EncodeAll(items) + left;
    if items == [] {
      assert b == left && Values(items) == [];
    } else {
      EncodeAllFront(items);
      DecodeEncode(items[0]);
      RoundTrip(items[1..], left);
      assert b[..items[0].width] == Encode(items[0]);
      assert b[items[0].width..] == EncodeAll(items[1..]) + left;
      assert [items[0].value] + Values(items[1..]) == Values(items);
    }
  }

  lemma {:induction false} EncodeAllPrefix(items: seq<Item>, k: nat)
    requires k <= |items| && forall i :: 0 <= i < |items| ==> ValidItem(items[i])
    ensures |EncodeAll(items[..k])| <= |EncodeAll(items)|
  {
    if k == |items| {
      assert items[..k] == items;
    } else {
      var n := |items| - 1;
      EncodeAllPrefix(items[..n], k);
      assert items[..n][..k] == items[..k];
    }
  }

  /** A list of calls of Write, up to the first that does not fit. */
  method WriteItems(writer: BigEndianWriter, items: seq<Item>) returns (written: nat)
    requires writer.Valid() && forall i :: 0 <= i < |items| ==> ValidItem(items[i])
    modifies writer`ptr, writer.buf
    ensures writer.Valid() && written <= |items|
    ensures written < |items| ==> writer.ptr + items[written].width > writer.end
    ensures writer.ptr == old(writer.ptr) + |EncodeAll(items[..written])|
    ensures writer.buf[..writer.ptr] == old(writer.buf[..writer.ptr]) + EncodeAll(items[..written])
    ensures writer.buf[writer.ptr..] == old(writer.buf[..])[writer.ptr..]
    decreases |items|
  {
    if items == [] {
      return 0;
    }
    var n := |items| - 1;
    written := WriteItems(writer, items[..n]);
    assert items[..n][..written] == items[..written];
    if written == n {
      var x := items[n];
      DecodeEncode(x);
      var ok := writer.Write(if x.signed then ToUnsigned(x.value, x.width) else x.value, x.width);
      if ok {
        written := n + 1;
        assert items[..n + 1] == items;
      }
    }
  }

  /** A list of calls of Read of the shapes of items, up to the first that finds too little. */
  method ReadItems(reader: BigEndianReader, items: seq<Item>) returns (values: seq<int>)
    requires reader.Valid() && forall i :: 0 <= i < |items| ==> ValidItem(items[i])
    modifies reader`ptr
    ensures reader.Valid() && |values| <= |items|
    ensures DecodeAll(old(reader.Rest()), items[..|values|]) == Some((values, reader.Rest()))
    ensures |values| < |items| ==> |reader.Rest()| < items[|values|].width
    ensures |values| < |items| <==> DecodeAll(old(reader.Rest()), items).None?
    decreases |items|
  {
    if items == [] {
      return [];
    }
    var x := items[0];
    var ok, v := reader.Read(x.width);
    if !ok {
      return [];
    }
    var others := ReadItems(reader, items[1..]);
    values := [if x.signed then ToSigned(v, x.width) else v] + others;
    assert items[..|values|][1..] == items[1..][..|others|];
  }

  lemma FirstFew(items: seq<Item>, k: nat)
    requires k <= |items| && forall i :: 0 <= i < |items| ==> ValidItem(items[i])
    ensures DecodeAll(EncodeAll(items[..k]), items[..k]) == Some((Values(items)[..k], []))
  {
    RoundTrip(items[..k], []);
    AddNothing(EncodeAll(items[..k]));
    assert Values(items[..k]) == Values(items)[..k];
  }

  /** When the first value that does not fit stands at k, k is the number of items just when all of them fit. */
  lemma AllFit(items: seq<Item>, k: nat, room: nat)
    requires k <= |items| && forall i :: 0 <= i < |items| ==> ValidItem(items[i])
    requires var used := |EncodeAll(items[..k])|; used <= room && (k < |items| ==> used + items[k].width > room)
    ensures k == |items| <==> |EncodeAll(items)| <= room
  {
    if k == |items| {
      assert items[..k] == items;
    } else {
      EncodeAllPrefix(items, k + 1);
      DecodeEncode(items[k]);
      assert items[..k + 1][..k] == items[..k];
    }
  }

  /** Round trip on the cursors themselves: what a writer put into a buffer, a reader of that much of the
      buffer gets back, as many values as fitted, and it ends where the writer ended. */
  method WriteThenRead(buf: array<Byte>, items: seq<Item>)
    returns (values: seq<int>, writer: BigEndianWriter, reader: BigEndianReader)
    requires forall i :: 0 <= i < |items| ==> ValidItem(items[i])
    modifies buf
    ensures |values| <= |items| && values == Values(items)[..|values|]
    ensures |values| == |items| <==> |EncodeAll(items)| <= buf.Length
    ensures fresh(writer) && fresh(reader) && reader.ptr == writer.ptr == |EncodeAll(items[..|values|])|
  {
    writer := new BigEndianWriter(buf, buf.Length);
    var written := WriteItems(writer, items);
    reader := new BigEndianReader(buf, writer.ptr);
    assert reader.Rest() == EncodeAll(items[..written]);
    FirstFew(items, written);
    AllFit(items, written, buf.Length);
    values := ReadItems(reader, items[..written]);
    assert items[..written][..written] == items[..written];
  }
}
