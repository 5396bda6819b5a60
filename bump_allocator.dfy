/**
  The linear ("bump") allocator of src/engine_lib.h: one fixed block of
  memory handed out front to back in 8-byte-aligned pieces, never freed.
*/
module BumpAllocation {
  import opened Machine

  /** The request rounded up to the next multiple of 8 (line 112, without 64-bit wrap-around). */
  function Align8(size: nat): (r: nat)
    ensures r % 8 == 0
    ensures size <= r < size + 8
  {
    (size + 7) - (size + 7) % 8
  }

  /** No smaller multiple of 8 covers the request. */
  lemma Align8IsLeast(size: nat, m: nat)
    requires m % 8 == 0 && size <= m
    ensures Align8(size) <= m
  {
  }

  /**
    `(size + 7) & ~7` exactly as the C code computes it, in 64-bit `size_t`.
    The result is always a multiple of 8, but once `size + 7` wraps it no
    longer covers the request (see `HugeRequestRoundsToZero`).
  */
  function AlignedSizeAsWritten(size: SizeT): (r: SizeT)
    ensures r % 8 == 0
    ensures r <= (size + 7) % SIZE_T_LIMIT
  {
    var x := (size + 7) % SIZE_T_LIMIT;
    MaskClearsLowBits(x);
    assert x - x % 8 == 8 * (x / 8);
    BitAnd(x, NOT_SEVEN)
  }

  /** When `size + 7` does not wrap, the bitwise expression is the rounded-up size. */
  lemma AlignedSizeAsWrittenRoundsUp(size: SizeT)
    requires size + 7 < SIZE_T_LIMIT
    ensures AlignedSizeAsWritten(size) == Align8(size)
    ensures AlignedSizeAsWritten(size) % 8 == 0
    ensures size <= AlignedSizeAsWritten(size) < size + 8
  {
    var x := size + 7;
    assert x % SIZE_T_LIMIT == x;
    MaskClearsLowBits(x);
    assert AlignedSizeAsWritten(size) == x - x % 8;
  }

  /** Sum of the sizes of the pieces handed out so far, in order. */
  function Total(grants: seq<nat>): nat {
    if grants == [] then 0 else Total(grants[..|grants| - 1]) + grants[|grants| - 1]
  }

  /** The offset of the k-th piece: everything granted before it. */
  function OffsetOf(grants: seq<nat>, k: nat): nat
    requires k <= |grants|
  {
    Total(grants[..k])
  }

  predicate AllAligned(grants: seq<nat>) {
    forall k :: 0 <= k < |grants| ==> grants[k] % 8 == 0
  }

  lemma {:induction false} OffsetsGrow(grants: seq<nat>, i: nat, j: nat)
    requires i <= j <= |grants|
    ensures OffsetOf(grants, i) <= OffsetOf(grants, j)
  {
    if i < j {
      OffsetsGrow(grants, i, j - 1);
      assert grants[..j][..j - 1] == grants[..j - 1];
    }
  }

  lemma {:induction false} OffsetsAligned(grants: seq<nat>, k: nat)
    requires AllAligned(grants) && k <= |grants|
    ensures OffsetOf(grants, k) % 8 == 0
  {
    if k > 0 {
      OffsetsAligned(grants, k - 1);
      assert grants[..k][..k - 1] == grants[..k - 1];
    }
  }

  /**
    Every piece handed out by a run of successful allocations starts at an
    8-aligned offset and lies inside `[0, capacity)`.
  */
  lemma {:induction false} PieceInside(grants: seq<nat>, capacity: nat, k: nat)
    requires AllAligned(grants) && Total(grants) <= capacity
    requires k < |grants|
    ensures OffsetOf(grants, k) % 8 == 0
    ensures OffsetOf(grants, k) + grants[k] <= capacity
  {
    OffsetsAligned(grants, k);
    assert grants[..k + 1][..k] == grants[..k];
    OffsetsGrow(grants, k + 1, |grants|);
    assert grants[..|grants|] == grants;
  }

  /** Pieces never overlap: piece i ends at or before the start of every later piece j. */
  lemma {:induction false} PiecesDisjoint(grants: seq<nat>, i: nat, j: nat)
    requires i < j < |grants|
    ensures OffsetOf(grants, i) + grants[i] <= OffsetOf(grants, j)
  {
    assert grants[..i + 1][..i] == grants[..i];
    OffsetsGrow(grants, i + 1, j);
  }

  /** `BumpAllocator` (lines 89-93): its capacity, the bytes used so far and the block. */
  class BumpAllocator {
    var capacity: SizeT
    var used: SizeT
    /** NULL when `malloc` failed. */
    var memory: array?<Byte>
    /** The aligned size of every piece handed out so far, in order. */
    ghost var Grants: seq<nat>

    ghost predicate Valid()
      reads this
    {
      && used <= capacity
      && (memory == null ==> capacity == 0)
      && (memory != null ==> memory.Length == capacity)
      && AllAligned(Grants)
      && used == Total(Grants)
    }

    /**
      `make_bump_allocator` (lines 95-107). `block` is what `malloc(size)`
      returned: None for NULL, otherwise the block's uninitialised bytes.
    */
    constructor Make(size: SizeT, block: Option<seq<Byte>>)
      requires block.Some? ==> |block.value| == size
      ensures Valid() && used == 0 && Grants == []
      ensures block.None? ==> memory == null && capacity == 0
      ensures block.Some? ==> memory != null && fresh(memory) && capacity == size
      ensures block.Some? ==> forall i :: 0 <= i < size ==> memory[i] == 0
    {
      if block.Some? {
        var m := new Byte[size](i requires 0 <= i < size => block.value[i]);
        forall i | 0 <= i < size {
          m[i] := 0;
        }
        capacity, used, memory := size, 0, m;
      } else {
        capacity, used, memory := 0, 0, null;
      }
      Grants := [];
    }

    /**
      `bumb_alloc` (lines 109-122): the offset of a fresh piece of
      `Align8(size)` bytes, or None (the NULL pointer) when the block is full.
    */
    method Alloc(size: SizeT) returns (result: Option<SizeT>)
      requires Valid()
      modifies this`used, this`Grants
      ensures Valid()
      ensures old(used) + Align8(size) <= capacity ==>
        && result == Some(old(used))
        && used == old(used) + Align8(size)
        && Grants == old(Grants) + [Align8(size)]
      ensures old(used) + Align8(size) > capacity ==>
        result == None && used == old(used) && Grants == old(Grants)
      ensures result.Some? ==> result.value % 8 == 0
      ensures memory != null ==> memory[..] == old(memory[..])
    {
      OffsetsAligned(Grants, |Grants|);
      assert Grants[..|Grants|] == Grants;
      var alignedSize := Align8(size);
      if used + alignedSize <= capacity {
        result := Some(used);
        used := used + alignedSize;
        Grants := Grants + [alignedSize];
        assert Grants[..|Grants| - 1] == old(Grants);
      } else {
        result := None;
      }
    }

    /**
      The pieces this allocator has handed out are aligned, inside the
      block and pairwise disjoint.
    */
    lemma PiecesSound(i: nat, j: nat)
      requires Valid() && i < j < |Grants|
      ensures OffsetOf(Grants, i) % 8 == 0 && OffsetOf(Grants, j) % 8 == 0
      ensures OffsetOf(Grants, i) + Grants[i] <= OffsetOf(Grants, j)
      ensures OffsetOf(Grants, j) + Grants[j] <= capacity
    {
      PieceInside(Grants, capacity, i);
      PieceInside(Grants, capacity, j);
      PiecesDisjoint(Grants, i, j);
    }
  }

  /**
    Two 10-byte requests on a fresh 64-byte allocator land at offsets 0 and
    16 and leave 32 bytes used.
  */
  method TwoTenByteAllocations() returns (first: Option<SizeT>, second: Option<SizeT>, used: SizeT)
    ensures first == Some(0) && second == Some(16) && used == 32
  {
    var ba := new BumpAllocator.Make(64, Some(seq(64, _ => 0xAA)));
    first := ba.Alloc(10);
    second := ba.Alloc(10);
    used := ba.used;
  }

  /** A request larger than what is left is refused and nothing is used up. */
  method ExhaustedAllocatorRefuses() returns (first: Option<SizeT>, second: Option<SizeT>, used: SizeT)
    ensures first == Some(0) && second == None && used == 56
  {
    var ba := new BumpAllocator.Make(100, Some(seq(100, _ => 0)));
    first := ba.Alloc(50);
    second := ba.Alloc(50);
    used := ba.used;
  }

  /**
    `bumb_alloc` as written, with `size + 7` and `used + alligendSize` both
    computed modulo 2^64: the offset handed out and the new `used`, or None.
  */
  function AllocAsWritten(used: SizeT, capacity: SizeT, size: SizeT): (r: Option<(SizeT, SizeT)>)
    ensures r.Some? ==> r.value.0 == used && r.value.1 <= capacity && r.value.1 % 8 == used % 8
  {
    var alignedSize := AlignedSizeAsWritten(size);
    var newUsed := (used + alignedSize) % SIZE_T_LIMIT;
    WrapKeepsResidue(used, alignedSize);
    if newUsed <= capacity then Some((used, newUsed)) else None
  }

  /** Whenever neither sum wraps, the code as written behaves like `Alloc`. */
  lemma AllocAsWrittenWithoutWrap(used: SizeT, capacity: SizeT, size: SizeT)
    requires size + 7 < SIZE_T_LIMIT && used + Align8(size) < SIZE_T_LIMIT
    ensures AllocAsWritten(used, capacity, size).Some? <==> used + Align8(size) <= capacity
    ensures used + Align8(size) <= capacity ==>
      AllocAsWritten(used, capacity, size).value == (used, used + Align8(size))
  {
    AlignedSizeAsWrittenRoundsUp(size);
    var sum := used + AlignedSizeAsWritten(size);
    assert sum == used + Align8(size);
    assert sum % SIZE_T_LIMIT == sum;
  }

  /**
    A request of 2^64 - 3 bytes wraps `size + 7` to 4, which rounds to 0:
    the code grants a huge request without using up a byte.
  */
  lemma HugeRequestRoundsToZero()
    ensures AlignedSizeAsWritten(SIZE_T_LIMIT - 3) == 0
    ensures AllocAsWritten(0, 64, SIZE_T_LIMIT - 3) == Some((0, 0))
  {
    MaskClearsLowBits(4);
  }

  /**
    With 16 of 64 bytes used, a request of 2^64 - 8 bytes wraps
    `used + alligendSize` to 8: it is granted and `used` drops from 16 to 8,
    so the next piece overlaps one already handed out.
  */
  lemma WrappedSumShrinksUsed()
    ensures AllocAsWritten(16, 64, SIZE_T_LIMIT - 8) == Some((16, 8))
  {
    AlignedSizeAsWrittenRoundsUp(SIZE_T_LIMIT - 8);
  }
}
