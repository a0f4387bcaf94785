/** MemoryBlock: a heap block that is reallocated and moved in place. */
module MemoryBlock {
  import opened Basics
  import opened BigEndian

  /** The block with bytes put in at pos, or at the end when pos is past it. */
  function Inserted(block: seq<Byte>, bytes: seq<Byte>, pos: nat): seq<Byte> {
    var at := Lesser(pos, |block|);
    block[..at] + bytes + block[at..]
  }

  /** The block without the n bytes from start. */
  function Removed(block: seq<Byte>, start: nat, n: nat): seq<Byte>
    requires start <= |block|
  {
    block[..start] + block[Lesser(start + n, |block|)..]
  }

  class MemoryBlock {
    var data: array<Byte>

    constructor ()
      ensures Contents() == [] && fresh(data)
    {
      data := new Byte[0];
    }

    function Size(): int
      reads this
    {
      data.Length
    }

    function Contents(): seq<Byte>
      reads this, data
    {
      data[..]
    }

    /** realloc: earlier bytes are kept, new ones are zero or arbitrary. A size of zero or less frees all. */
    method SetSize(newSize: int, initialiseToZero: bool)
      modifies this`data
      ensures data.Length == if newSize <= 0 then 0 else newSize
      ensures data == old(data) || fresh(data)
      ensures var kept := Lesser(old(data.Length), data.Length);
        && data[..kept] == old(data[..kept])
        && (initialiseToZero ==> forall i :: kept <= i < data.Length ==> data[i] == 0)
    {
      if data.Length != newSize {
        if newSize <= 0 {
          data := new Byte[0];
        } else {
          var before := data;
          var kept := Lesser(before.Length, newSize);
          data := new Byte[newSize];
          forall i | 0 <= i < kept {
            data[i] := before[i];
          }
          if initialiseToZero && newSize > before.Length {
            forall i | kept <= i < newSize {
              data[i] := 0;
            }
          }
        }
      }
    }

    method EnsureSize(minimumSize: int, initialiseToZero: bool)
      modifies this`data
      ensures data.Length == if old(data.Length) < minimumSize then minimumSize else old(data.Length)
      ensures data == old(data) || fresh(data)
      ensures data[..old(data.Length)] == old(data[..])
      ensures initialiseToZero ==> forall i :: old(data.Length) <= i < data.Length ==> data[i] == 0
    {
      if data.Length < minimumSize {
        SetSize(minimumSize, initialiseToZero);
      }
    }

    method Append(srcData: seq<Byte>)
      modifies this, data
      ensures data == old(data) || fresh(data)
      ensures Contents() == old(Contents()) + srcData
    {
      if |srcData| > 0 {
        var oldSize := data.Length;
        SetSize(data.Length + |srcData|, false);
        forall i | 0 <= i < |srcData| {
          data[oldSize + i] := srcData[i];
        }
      }
    }

    /** Moves the tail up to make room for n bytes at a position. */
    method MakeRoom(at: nat, n: nat)
      requires at <= data.Length && n > 0
      modifies this, data
      ensures data == old(data) || fresh(data)
      ensures data.Length == old(data.Length) + n
      ensures data[..at] == old(Contents())[..at] && data[at + n..] == old(Contents())[at..]
    {
      ghost var before := data[..];
      var trailing := data.Length - at;
      SetSize(data.Length + n, false);
      assert data[..|before|] == before;
      if trailing > 0 {
        forall i | 0 <= i < trailing {
          data[at + n + i] := data[at + i];
        }
      }
    }

    /** Makes room, then copies in. */
    method Insert(srcData: seq<Byte>, insertPosition: nat)
      modifies this, data
      ensures data == old(data) || fresh(data)
      ensures Contents() == Inserted(old(Contents()), srcData, insertPosition)
      ensures insertPosition <= old(data.Length) ==>
        Contents() == old(Contents())[..insertPosition] + srcData + old(Contents())[insertPosition..]
      ensures insertPosition > old(data.Length) ==> Contents() == old(Contents()) + srcData
    {
      ghost var before := data[..];
      var at := Lesser(insertPosition, data.Length);
      if |srcData| > 0 {
        MakeRoom(at, |srcData|);
        forall i | 0 <= i < |srcData| {
          data[at + i] := srcData[i];
        }
        assert data[at..at + |srcData|] == srcData;
        assert data[..at] == before[..at] && data[at + |srcData|..] == before[at..];
      } else {
        assert before == before[..at] + srcData + before[at..];
      }
    }

    /** Moves the tail down over the section, then shrinks; a section that starts past the block makes the
        block grow to that start. */
    method RemoveSection(startByte: nat, numBytesToRemove: nat)
      modifies this, data
      ensures data == old(data) || fresh(data)
      ensures if startByte <= old(data.Length) then Contents() == Removed(old(Contents()), startByte, numBytesToRemove)
              else data.Length == startByte && data[..old(data.Length)] == old(Contents())
      ensures startByte + numBytesToRemove <= old(data.Length) ==>
        Contents() == old(Contents())[..startByte] + old(Contents())[startByte + numBytesToRemove..]
    {
      ghost var before := data[..];
      if startByte + numBytesToRemove >= data.Length {
        SetSize(startByte, false);
        if startByte <= |before| {
          assert before[|before|..] == [];
          assert data[..] == before[..startByte];
        }
      } else if numBytesToRemove > 0 {
        forall i | startByte <= i < data.Length - numBytesToRemove {
          data[i] := data[i + numBytesToRemove];
        }
        assert data[..data.Length - numBytesToRemove] == before[..startByte] + before[startByte + numBytesToRemove..];
        SetSize(data.Length - numBytesToRemove, false);
      } else {
        assert before == before[..startByte] + before[startByte..];
      }
    }
  }

  /** Removing what was inserted gives the block back. */
  lemma RemoveUndoesInsert(block: seq<Byte>, bytes: seq<Byte>, pos: nat)
    ensures Removed(Inserted(block, bytes, pos), Lesser(pos, |block|), |bytes|) == block
  {
    var at, longer := Lesser(pos, |block|), Inserted(block, bytes, pos);
    assert longer[..at] == block[..at];
    assert longer[at + |bytes|..] == block[at..];
  }

  /** Inserting what was removed, at the place it came from, gives the block back. */
  lemma InsertUndoesRemove(block: seq<Byte>, start: nat, n: nat)
    requires start <= |block|
    ensures Inserted(Removed(block, start, n), block[start..Lesser(start + n, |block|)], start) == block
  {
    var end := Lesser(start + n, |block|);
    var shorter := Removed(block, start, n);
    assert shorter[..start] == block[..start] && shorter[start..] == block[end..];
  }
}
