/** Disk blocks as the kernel sees them: BSIZE bytes, read and written either as
    bytes or as little-endian 32-bit words (log header, indirect block). */
module Blocks {
  import opened Common

  const NWORDS := 256

  type Block = b: seq<Byte> | |b| == BSIZE witness seq(BSIZE, i => 0)

  /** A disk is the sequence of its blocks; one block write is atomic. */
  type DiskImage = seq<Block>

  const ZeroBlock: Block := seq(BSIZE, i => 0)

  function Word(b: Block, i: nat): Uint
    requires i < NWORDS
  {
    var b0: int, b1: int, b2: int, b3: int := b[4 * i], b[4 * i + 1], b[4 * i + 2], b[4 * i + 3];
    b0 + 0x100 * b1 + 0x1_0000 * b2 + 0x100_0000 * b3
  }

  function SetWord(b: Block, i: nat, v: Uint): Block
    requires i < NWORDS
  {
    b[4 * i := v % 0x100]
     [4 * i + 1 := (v / 0x100) % 0x100]
     [4 * i + 2 := (v / 0x1_0000) % 0x100]
     [4 * i + 3 := v / 0x100_0000]
  }

  /** Storing a word and reading any word back. */
  lemma WordOfSetWord(b: Block, i: nat, v: Uint, j: nat)
    requires i < NWORDS && j < NWORDS
    ensures Word(SetWord(b, i, v), j) == if j == i then v else Word(b, j)
  {
    if j == i {
      BytesOfWord(v);
    }
  }

  lemma BytesOfWord(v: Uint)
    ensures v % 0x100 + 0x100 * ((v / 0x100) % 0x100)
            + 0x1_0000 * ((v / 0x1_0000) % 0x100) + 0x100_0000 * (v / 0x100_0000) == v
  {
    var v1, v2 := v / 0x100, v / 0x1_0000;
    assert v == 0x100 * v1 + v % 0x100;
    assert v2 == v1 / 0x100 && v1 == 0x100 * v2 + v1 % 0x100;
    assert v / 0x100_0000 == v2 / 0x100 && v2 == 0x100 * (v2 / 0x100) + v2 % 0x100;
  }
}
