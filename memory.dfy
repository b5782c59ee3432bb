/** Word memory: a growable sequence of fixed-size blocks (`MemoryBlock`),
    addressed by a flat location that splits into a block index and an
    offset. This module gives the value-level view of `Processor.regions`
    and the block constructor. */
module Memory {
  import opened Words

  /** `MEM_SIZE`: the number of words in one block. */
  const MEM_SIZE: nat := 2048

  /** The block a location falls in. The source computes
      `floor(location as f64 / 2048.0)`; every `u32` is exact in an `f64` and
      2048 is a power of two, so that is the integer quotient. */
  function RegionOf(a: u32): nat
  {
    a / MEM_SIZE
  }

  /** The word within its block: `location % MEM_SIZE`. */
  function OffsetOf(a: u32): (o: nat)
    ensures o < MEM_SIZE
  {
    a % MEM_SIZE
  }

  /** Distinct locations never share both block and offset. */
  lemma SplitInjective(a: u32, b: u32)
    requires RegionOf(a) == RegionOf(b) && OffsetOf(a) == OffsetOf(b)
    ensures a == b
  {
    assert a == RegionOf(a) * MEM_SIZE + OffsetOf(a);
    assert b == RegionOf(b) * MEM_SIZE + OffsetOf(b);
  }

  /** The contents of one zeroed `MemoryBlock`. */
  function ZeroBlock(): (b: seq<u32>)
    ensures |b| == MEM_SIZE
    ensures forall i :: 0 <= i < MEM_SIZE ==> b[i] == 0
  {
    seq(MEM_SIZE, _ => 0)
  }

  /** Every allocated block holds exactly `MEM_SIZE` words. */
  predicate WellFormed(blocks: seq<seq<u32>>)
  {
    forall i :: 0 <= i < |blocks| ==> |blocks[i]| == MEM_SIZE
  }

  /** `_get_memory_loc`: the word at `a`, or 0 when its block was never
      allocated. */
  function Read(blocks: seq<seq<u32>>, a: u32): u32
    requires WellFormed(blocks)
  {
    if RegionOf(a) < |blocks| then blocks[RegionOf(a)][OffsetOf(a)] else 0
  }

  /** `_set_memory_loc`: `v` stored at `a`. The source indexes the block
      vector without a check, so the block must exist. */
  function Write(blocks: seq<seq<u32>>, a: u32, v: u32): (r: seq<seq<u32>>)
    requires WellFormed(blocks) && RegionOf(a) < |blocks|
    ensures WellFormed(r) && |r| == |blocks|
  {
    var k := RegionOf(a);
    var block: seq<u32> := blocks[k][OffsetOf(a) := v];
    blocks[k := block]
  }

  /** `add_region(MemoryBlock::new())`: one zeroed block appended. */
  function Grow(blocks: seq<seq<u32>>): (r: seq<seq<u32>>)
    requires WellFormed(blocks)
    ensures WellFormed(r) && |r| == |blocks| + 1
  {
    blocks + [ZeroBlock()]
  }

  /** A location is backed by a block exactly when it lies below
      `block count * MEM_SIZE`. */
  lemma AllocatedBelowSize(blocks: seq<seq<u32>>, a: u32)
    ensures RegionOf(a) < |blocks| <==> a < |blocks| * MEM_SIZE
  {
    var n := |blocks|;
    var r := RegionOf(a);
    assert a == r * MEM_SIZE + OffsetOf(a);
    if r < n {
      assert r * MEM_SIZE <= (n - 1) * MEM_SIZE;
    } else {
      assert n * MEM_SIZE <= r * MEM_SIZE;
    }
  }

  /** A location whose block was never allocated reads 0. */
  lemma ReadUnallocated(blocks: seq<seq<u32>>, a: u32)
    requires WellFormed(blocks) && a >= |blocks| * MEM_SIZE
    ensures Read(blocks, a) == 0
  {
    AllocatedBelowSize(blocks, a);
  }

  /** Writing `v` at `a` and reading `a` back gives `v`. */
  lemma ReadAfterWrite(blocks: seq<seq<u32>>, a: u32, v: u32)
    requires WellFormed(blocks) && RegionOf(a) < |blocks|
    ensures Read(Write(blocks, a, v), a) == v
  {
  }

  /** Writing at `a` leaves every other location as it was. */
  lemma ReadAfterWriteElsewhere(blocks: seq<seq<u32>>, a: u32, v: u32, b: u32)
    requires WellFormed(blocks) && RegionOf(a) < |blocks| && a != b
    ensures Read(Write(blocks, a, v), b) == Read(blocks, b)
  {
    if RegionOf(a) == RegionOf(b) && OffsetOf(a) == OffsetOf(b) {
      SplitInjective(a, b);
    }
  }

  /** Growing changes no read at all: the old locations keep their words and
      the new block's locations read 0, as they did while unallocated. */
  lemma ReadAfterGrow(blocks: seq<seq<u32>>, a: u32)
    requires WellFormed(blocks)
    ensures Read(Grow(blocks), a) == Read(blocks, a)
    ensures RegionOf(a) == |blocks| ==> Read(Grow(blocks), a) == 0
  {
  }

  /** The new block gets index `|blocks|`, the old block count, and the
      addressable range becomes one block longer. */
  lemma GrowAppends(blocks: seq<seq<u32>>, a: u32)
    requires WellFormed(blocks)
    ensures Grow(blocks)[..|blocks|] == blocks
    ensures Grow(blocks)[|blocks|] == ZeroBlock()
    ensures a < |Grow(blocks)| * MEM_SIZE <==> RegionOf(a) <= |blocks|
  {
    AllocatedBelowSize(Grow(blocks), a);
  }

  /** `MemoryBlock::new`: a fresh block of `MEM_SIZE` zero words. */
  method NewBlock() returns (block: array<u32>)
    ensures fresh(block) && block[..] == ZeroBlock()
  {
    block := new u32[MEM_SIZE](_ => 0);
  }
}
