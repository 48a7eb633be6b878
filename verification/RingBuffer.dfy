/**
  The ring buffer as one object over an array: masked indices, one slot kept empty.
  What it means under two concurrent threads is in Spsc.
 */
module RingBuffer {
  import opened Bits

  class RingBuffer<T(0)> {
    const bits: nat
    const data: array<T>
    var writeIdx: nat
    var readIdx: nat

    function Capacity(): nat { Pow2(bits) }

    ghost predicate Valid()
      reads this
    {
      bits < WORD_BITS && data.Length == Pow2(bits) && writeIdx < Pow2(bits) && readIdx < Pow2(bits)
    }

    /** The queued elements, oldest first. */
    ghost function Contents(): (q: seq<T>)
      requires Valid()
      reads this, data
      ensures |q| == Ahead(writeIdx, readIdx, Pow2(bits))
    {
      if readIdx <= writeIdx then data[readIdx..writeIdx] else data[readIdx..] + data[..writeIdx]
    }

    constructor (bits: nat)
      requires bits < WORD_BITS
      ensures Valid() && this.bits == bits && fresh(data) && Contents() == []
    {
      this.bits := bits;
      data := new T[Pow2(bits)];
      writeIdx, readIdx := 0, 0;
    }

    function Mask(): nat { Pow2(bits) - 1 }

    method Push(item: T) returns (ok: bool)
      requires Valid()
      modifies this`writeIdx, data
      ensures Valid()
      ensures ok <==> old(|Contents()|) < Capacity() - 1
      ensures Contents() == if ok then old(Contents()) + [item] else old(Contents())
    {
      var w := writeIdx;
      var nextW := And(w + 1, Mask());
      NextIndex(w, bits);
      if nextW == readIdx {
        return false;
      }
      data[w] := item;
      writeIdx := nextW;
      ok := true;
    }

    method Pop() returns (item: T, ok: bool)
      requires Valid()
      modifies this`readIdx
      ensures Valid()
      ensures ok <==> old(Contents()) != []
      ensures ok ==> item == old(Contents())[0] && Contents() == old(Contents())[1..]
      ensures !ok ==> Contents() == old(Contents())
    {
      var r := readIdx;
      if r == writeIdx {
        item := *;
        return item, false;
      }
      item := data[r];
      NextIndex(r, bits);
      readIdx := And(r + 1, Mask());
      ok := true;
    }

    method IsEmpty() returns (b: bool)
      requires Valid()
      ensures b <==> Contents() == []
    {
      b := readIdx == writeIdx;
    }

    method IsFull() returns (b: bool)
      requires Valid()
      ensures b <==> |Contents()| == Capacity() - 1
    {
      NextIndex(writeIdx, bits);
      b := And(writeIdx + 1, Mask()) == readIdx;
    }

    method Size() returns (n: nat)
      requires Valid()
      ensures n == |Contents()|
    {
      MaskedDifference(writeIdx, readIdx, bits);
      n := And(WordSub(writeIdx, readIdx), Mask());
    }
  }

  /** The masked successor of an index wraps to zero at the last slot. */
  lemma {:induction false} NextIndex(i: nat, bits: nat)
    requires i < Pow2(bits)
    ensures And(i + 1, Pow2(bits) - 1) == if i + 1 == Pow2(bits) then 0 else i + 1
  {
    MaskIsMod(i + 1, bits);
    if i + 1 < Pow2(bits) {
      SmallMod(i + 1, Pow2(bits));
    } else {
      ModUnique(i + 1, Pow2(bits), 1, 0);
    }
  }
}
