/** Inodes, the free-block bitmap and the blocks they name, as kernel/fs.c keeps them on
    disk; who owns each block; and the bytes of each file. */
module FsSpec {
  import opened Common
  import opened Blocks

  const NDIRECT := 12
  const NINDIRECT := 256
  const MAXFILE := 268
  const BPB := 8192
  const IPB := 16

  // ---- Bits ----

  predicate Bit(x: nat, k: nat) {
    if k == 0 then x % 2 == 1 else Bit(x / 2, k - 1)
  }

  /** x | m, or x & ~m, for m = 1 << k. */
  function PutBit(x: nat, k: nat, on: bool): nat {
    if k == 0 then x - x % 2 + (if on then 1 else 0) else 2 * PutBit(x / 2, k - 1, on) + x % 2
  }

  function Lim(n: nat): nat {
    if n == 0 then 1 else 2 * Lim(n - 1)
  }

  lemma {:induction false} PutBitFits(x: nat, k: nat, on: bool, n: nat)
    requires k < n && x < Lim(n)
    ensures PutBit(x, k, on) < Lim(n)
  {
    var half, rest, lim := x / 2, x % 2, Lim(n - 1);
    assert x == 2 * half + rest && Lim(n) == 2 * lim && half < lim;
    if k > 0 {
      PutBitFits(half, k - 1, on, n - 1);
      assert PutBit(x, k, on) == 2 * PutBit(half, k - 1, on) + rest;
    } else {
      assert PutBit(x, k, on) == 2 * half + if on then 1 else 0;
    }
  }

  lemma {:induction false} PutBitAt(x: nat, k: nat, on: bool, j: nat)
    ensures Bit(PutBit(x, k, on), j) == if j == k then on else Bit(x, j)
  {
    var y := PutBit(x, k, on);
    if k > 0 {
      assert y / 2 == PutBit(x / 2, k - 1, on) && y % 2 == x % 2;
    } else {
      assert y / 2 == x / 2;
    }
    if j > 0 && k > 0 {
      PutBitAt(x / 2, k - 1, on, j - 1);
    }
  }

  function PutBitByte(x: Byte, k: nat, on: bool): (y: Byte)
    requires k < 8
    ensures y as int == PutBit(x, k, on)
  {
    PutBitFits(x, k, on, 8);
    assert Lim(8) == 256;
    PutBit(x, k, on)
  }

  // ---- State ----

  /** In-memory inodes; addrs are NDIRECT direct blocks and the indirect one. */
  datatype Inode = Inode(size: nat, addrs: seq<nat>)

  /** What the superblock says: the whole size, where the inode blocks and the bitmap
      start, and the first data block. */
  datatype Super = Super(size: nat, inodestart: nat, ninodes: nat, bmapstart: nat, dstart: nat)

  /** The blocks of an inode are its file blocks 0 .. MAXFILE, and the indirect block,
      slot MAXFILE. */
  const ROOT: nat := MAXFILE

  /** Metadata, free, allocated but in no slot yet, or in slot k of inode n. */
  datatype Owner = Meta | Unused | Taken | Used(n: nat, k: nat)

  /** `owner` is bookkeeping. */
  datatype Fs = Fs(sb: Super, disk: DiskImage, inodes: seq<Inode>, owner: seq<Owner>)

  ghost predicate SuperOk(sb: Super, disk: DiskImage) {
    && 0 < sb.bmapstart && sb.dstart <= sb.size <= |disk| && sb.size < UINT32
    && sb.inodestart + sb.ninodes / IPB < sb.bmapstart
    && sb.bmapstart + sb.size / BPB < sb.dstart
  }

  function BitBlock(sb: Super, b: nat): nat {
    b / BPB + sb.bmapstart
  }

  /** The bitmap bit of block b. */
  predicate BitOf(sb: Super, disk: DiskImage, b: nat)
    requires BitBlock(sb, b) < |disk|
  {
    Bit(disk[BitBlock(sb, b)][b % BPB / 8], b % BPB % 8)
  }

  function MarkBlock(blk: Block, bi: nat, on: bool): Block
    requires bi < BPB
  {
    blk[bi / 8 := PutBitByte(blk[bi / 8], bi % 8, on)]
  }

  function Mark(sb: Super, disk: DiskImage, b: nat, on: bool): DiskImage
    requires BitBlock(sb, b) < |disk|
  {
    disk[BitBlock(sb, b) := MarkBlock(disk[BitBlock(sb, b)], b % BPB, on)]
  }

  /** Marking a block changes its own bit and no other. */
  lemma MarkAt(sb: Super, disk: DiskImage, b: nat, on: bool, c: nat)
    requires BitBlock(sb, b) < |disk| && BitBlock(sb, c) < |disk|
    ensures BitOf(sb, Mark(sb, disk, b, on), c) == if c == b then on else BitOf(sb, disk, c)
  {
    hide Bit, PutBit;
    var x := disk[BitBlock(sb, b)][b % BPB / 8];
    if BitBlock(sb, c) == BitBlock(sb, b) && c % BPB / 8 == b % BPB / 8 {
      PutBitAt(x, b % BPB % 8, on, c % BPB % 8);
      SameBit(b, c);
    }
  }

  lemma SameBit(b: nat, c: nat)
    requires b / BPB == c / BPB && c % BPB / 8 == b % BPB / 8
    ensures c == b <==> c % BPB % 8 == b % BPB % 8
  {
    assert b == b / BPB * BPB + b % BPB && c == c / BPB * BPB + c % BPB;
    var x, y := b % BPB, c % BPB;
    assert x == x / 8 * 8 + x % 8 && y == y / 8 * 8 + y % 8;
  }

  function Zeros(): Block {
    seq(BSIZE, i => 0)
  }

  lemma WordOfZeros(i: nat)
    requires i < NWORDS
    ensures Word(Zeros(), i) == 0
  {
  }

  // ---- Block maps ----

  /** The disk block that slot k of an inode names, or 0. */
  function SlotVal(disk: DiskImage, ino: Inode, k: nat): nat
    requires |ino.addrs| == NDIRECT + 1 && k <= MAXFILE
  {
    if k == ROOT then ino.addrs[NDIRECT]
    else if k < NDIRECT then ino.addrs[k]
    else if ino.addrs[NDIRECT] == 0 || ino.addrs[NDIRECT] >= |disk| then 0
    else Word(disk[ino.addrs[NDIRECT]], k - NDIRECT)
  }

  ghost predicate InodeOk(ino: Inode) {
    |ino.addrs| == NDIRECT + 1 && ino.size <= MAXFILE * BSIZE
  }

  ghost predicate SlotOk(g: Fs, n: nat, k: nat)
    requires n < |g.inodes| && InodeOk(g.inodes[n]) && k <= MAXFILE
  {
    var b := SlotVal(g.disk, g.inodes[n], k);
    b != 0 ==> b < |g.owner| && g.owner[b] == Used(n, k)
  }

  ghost predicate OwnerOk(g: Fs, b: nat)
    requires b < |g.owner|
  {
    match g.owner[b]
    case Used(n, k) => b != 0 && n < |g.inodes| && k <= MAXFILE && InodeOk(g.inodes[n])
      && SlotVal(g.disk, g.inodes[n], k) == b
    case _ => true
  }

  ghost predicate Bits(g: Fs) {
    && SuperOk(g.sb, g.disk) && |g.owner| == g.sb.size
    && (forall b :: 0 <= b < g.sb.size ==> (g.owner[b] == Meta <==> b < g.sb.dstart))
    && forall b :: 0 <= b < g.sb.size ==> (BitOf(g.sb, g.disk, b) <==> g.owner[b] != Unused)
  }

  ghost predicate Slots(g: Fs) {
    && (forall n :: 0 <= n < |g.inodes| ==> InodeOk(g.inodes[n]))
    && (forall n, k :: 0 <= n < |g.inodes| && 0 <= k <= MAXFILE ==> SlotOk(g, n, k))
    && (forall b :: 0 <= b < |g.owner| ==> OwnerOk(g, b))
  }

  /** A bit is set exactly when its block is metadata or in exactly one slot. */
  ghost predicate FsOk(g: Fs) {
    Bits(g) && Slots(g)
  }

  // ---- Files ----

  function BlockOf(g: Fs, n: nat, bn: nat): nat
    requires n < |g.inodes| && InodeOk(g.inodes[n]) && bn < MAXFILE
  {
    SlotVal(g.disk, g.inodes[n], bn)
  }

  /** Byte o of file n; a block that is not there reads as zeros. */
  function FileByte(g: Fs, n: nat, o: nat): Byte
    requires n < |g.inodes| && InodeOk(g.inodes[n]) && o < MAXFILE * BSIZE
  {
    var a := BlockOf(g, n, o / BSIZE);
    if a == 0 || a >= |g.disk| then 0 else g.disk[a][o % BSIZE]
  }

  ghost predicate SameFile(g: Fs, g': Fs, n: nat) {
    && n < |g.inodes| && n < |g'.inodes| && InodeOk(g.inodes[n]) && InodeOk(g'.inodes[n])
    && g'.inodes[n].size == g.inodes[n].size
    && forall o :: 0 <= o < MAXFILE * BSIZE ==> FileByte(g', n, o) == FileByte(g, n, o)
  }

  /** All files hold what they held. */
  ghost predicate SameFiles(g: Fs, g': Fs) {
    |g'.inodes| == |g.inodes| && forall n :: 0 <= n < |g.inodes| ==> SameFile(g, g', n)
  }

  /** The file as a sequence. */
  function Content(g: Fs, n: nat): (s: seq<Byte>)
    requires n < |g.inodes| && InodeOk(g.inodes[n])
    ensures |s| == g.inodes[n].size
  {
    seq(g.inodes[n].size, o requires 0 <= o < g.inodes[n].size => FileByte(g, n, o))
  }
}
