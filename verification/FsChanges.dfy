/** The single steps of block allocation, file growth, writing and truncation, and what
    each does to block ownership and to the files (kernel/fs.c:49-103, 377-437). */
module FsChanges {
  import opened Common
  import opened Blocks
  import opened FsSpec

  // ---- Slots and owned blocks ----

  ghost predicate SameSlots(g: Fs, g': Fs) {
    && |g'.inodes| == |g.inodes|
    && (forall n :: 0 <= n < |g.inodes| ==> InodeOk(g'.inodes[n]) && InodeOk(g.inodes[n]))
    && forall n, k :: 0 <= n < |g.inodes| && 0 <= k <= MAXFILE ==>
       SlotVal(g'.disk, g'.inodes[n], k) == SlotVal(g.disk, g.inodes[n], k)
  }

  /** A slot's block is a data block of its own. */
  lemma SlotBlock(g: Fs, n: nat, k: nat)
    requires FsOk(g) && n < |g.inodes| && k <= MAXFILE && SlotVal(g.disk, g.inodes[n], k) != 0
    ensures var b := SlotVal(g.disk, g.inodes[n], k);
            g.sb.dstart <= b < g.sb.size && b < |g.disk| && g.owner[b] == Used(n, k)
  {
    assert SlotOk(g, n, k);
  }

  /** Blocks in slots, and inodes, are untouched. */
  lemma SameSlotsIf(g: Fs, g': Fs)
    requires FsOk(g) && g'.inodes == g.inodes && |g'.disk| == |g.disk|
    requires forall b :: 0 <= b < |g.owner| && g.owner[b].Used? ==> g'.disk[b] == g.disk[b]
    ensures SameSlots(g, g') && SameFiles(g, g')
  {
    hide Word, Bits;
    forall n, k | 0 <= n < |g.inodes| && 0 <= k <= MAXFILE
      ensures SlotVal(g'.disk, g'.inodes[n], k) == SlotVal(g.disk, g.inodes[n], k)
    {
      assert InodeOk(g.inodes[n]) && SlotOk(g, n, ROOT);
    }
    forall n | 0 <= n < |g.inodes| ensures SameFile(g, g', n) {
      forall o | 0 <= o < MAXFILE * BSIZE ensures FileByte(g', n, o) == FileByte(g, n, o) {
        assert SlotOk(g, n, o / BSIZE);
      }
    }
  }

  lemma SlotsKept(g: Fs, g': Fs)
    requires Slots(g) && SameSlots(g, g') && |g'.owner| == |g.owner|
    requires forall b :: 0 <= b < |g.owner| && (g.owner[b].Used? || g'.owner[b].Used?) ==> g'.owner[b] == g.owner[b]
    ensures Slots(g')
  {
    hide SlotVal;
    forall n, k | 0 <= n < |g'.inodes| && 0 <= k <= MAXFILE ensures SlotOk(g', n, k) {
      assert SlotOk(g, n, k);
    }
    forall b | 0 <= b < |g'.owner| ensures OwnerOk(g', b) {
      assert OwnerOk(g, b);
    }
  }

  // ---- balloc ----

  function Alloced(g: Fs, b: nat): Fs
    requires b < |g.disk| && BitBlock(g.sb, b) < |g.disk| && b < |g.owner|
  {
    Fs(g.sb, Mark(g.sb, g.disk, b, true)[b := Zeros()], g.inodes, g.owner[b := Taken])
  }

  lemma BitBlockIn(g: Fs, b: nat)
    requires Bits(g) && b < g.sb.size
    ensures g.sb.bmapstart <= BitBlock(g.sb, b) < g.sb.dstart && BitBlock(g.sb, b) < |g.disk|
  {
    assert b / BPB <= g.sb.size / BPB;
  }

  lemma AllocedBits(g: Fs, b: nat)
    requires Bits(g) && b < g.sb.size && g.owner[b] == Unused && BitBlock(g.sb, b) < |g.disk|
    ensures Bits(Alloced(g, b))
  {
    hide Bit, MarkBlock;
    var g' := Alloced(g, b);
    forall c | 0 <= c < g.sb.size
      ensures BitBlock(g.sb, c) < |g.disk| && (BitOf(g.sb, g'.disk, c) <==> g'.owner[c] != Unused) {
      BitBlockIn(g, c);
      MarkAt(g.sb, g.disk, b, true, c);
    }
  }

  /** balloc's block was in no slot, and no file changes. */
  lemma AllocedOk(g: Fs, b: nat)
    requires FsOk(g) && b < g.sb.size && g.owner[b] == Unused && BitBlock(g.sb, b) < |g.disk|
    ensures b >= g.sb.dstart && FsOk(Alloced(g, b)) && SameSlots(g, Alloced(g, b)) && SameFiles(g, Alloced(g, b))
  {
    hide MarkBlock, BitOf, SameFiles, SlotVal;
    var g' := Alloced(g, b);
    BitBlockIn(g, b);
    AllocedBits(g, b);
    SameSlotsIf(g, g');
    SlotsKept(g, g');
  }

  // ---- Storing a block number in a slot ----

  /** Slot k of inode n has become b; no other slot has changed. */
  ghost predicate SlotSet(g: Fs, g': Fs, n: nat, k: nat, b: nat) {
    && |g'.inodes| == |g.inodes| && n < |g.inodes| && k <= MAXFILE
    && (forall m :: 0 <= m < |g.inodes| ==>
       InodeOk(g'.inodes[m]) && InodeOk(g.inodes[m]) && g'.inodes[m].size == g.inodes[m].size)
    && forall m, j :: 0 <= m < |g.inodes| && 0 <= j <= MAXFILE ==>
         SlotVal(g'.disk, g'.inodes[m], j) == if m == n && j == k then b else SlotVal(g.disk, g.inodes[m], j)
  }

  lemma SlotSetSlots(g: Fs, g': Fs, n: nat, k: nat, b: nat)
    requires Slots(g) && SlotSet(g, g', n, k, b) && SlotVal(g.disk, g.inodes[n], k) == 0
    requires 0 < b < |g.owner| && g.owner[b] == Taken && g'.owner == g.owner[b := Used(n, k)]
    ensures Slots(g')
  {
    hide SlotVal;
    forall m, j | 0 <= m < |g'.inodes| && 0 <= j <= MAXFILE ensures SlotOk(g', m, j) {
      assert SlotOk(g, m, j);
    }
    forall c | 0 <= c < |g'.owner| ensures OwnerOk(g', c) {
      assert OwnerOk(g, c);
    }
  }

  /** A zero block in an empty slot leaves every file as it was. */
  lemma SlotSetFiles(g: Fs, g': Fs, n: nat, k: nat, b: nat)
    requires FsOk(g) && SlotSet(g, g', n, k, b) && SlotVal(g.disk, g.inodes[n], k) == 0 && |g'.disk| == |g.disk|
    requires b < |g.disk| && g'.disk[b] == Zeros()
    requires forall c :: 0 <= c < |g.owner| && g.owner[c].Used? && g.owner[c].k != ROOT ==> g'.disk[c] == g.disk[c]
    ensures SameFiles(g, g')
  {
    hide SlotVal;
    forall m | 0 <= m < |g.inodes| ensures SameFile(g, g', m) {
      forall o | 0 <= o < MAXFILE * BSIZE ensures FileByte(g', m, o) == FileByte(g, m, o) {
        assert SlotOk(g, m, o / BSIZE);
      }
    }
  }

  /** ip->addrs[i] = b. */
  function AddrStored(g: Fs, n: nat, i: nat, b: nat): Fs
    requires n < |g.inodes| && i < |g.inodes[n].addrs| && b < |g.owner|
  {
    Fs(g.sb, g.disk, g.inodes[n := Inode(g.inodes[n].size, g.inodes[n].addrs[i := b])],
       g.owner[b := Used(n, if i == NDIRECT then ROOT else i)])
  }

  lemma AddrStoredOk(g: Fs, n: nat, i: nat, b: nat)
    requires FsOk(g) && n < |g.inodes| && i <= NDIRECT && g.inodes[n].addrs[i] == 0
    requires b < g.sb.size && g.owner[b] == Taken && g.disk[b] == Zeros()
    ensures FsOk(AddrStored(g, n, i, b)) && SameFiles(g, AddrStored(g, n, i, b))
    ensures SlotSet(g, AddrStored(g, n, i, b), n, if i == NDIRECT then ROOT else i, b)
  {
    hide BitOf, Word;
    var g', k := AddrStored(g, n, i, b), if i == NDIRECT then ROOT else i;
    forall m, j | 0 <= m < |g.inodes| && 0 <= j <= MAXFILE
      ensures SlotVal(g'.disk, g'.inodes[m], j) == if m == n && j == k then b else SlotVal(g.disk, g.inodes[m], j)
    {
      if j >= NDIRECT && j != ROOT {
        WordOfZeros(j - NDIRECT);
      }
    }
    SlotSetSlots(g, g', n, k, b);
    SlotSetFiles(g, g', n, k, b);
  }

  /** a[j] = b in the indirect block of inode n. */
  function WordStored(g: Fs, n: nat, j: nat, b: nat): Fs
    requires n < |g.inodes| && InodeOk(g.inodes[n]) && g.inodes[n].addrs[NDIRECT] < |g.disk| && j < NINDIRECT
    requires b < |g.owner| && b < UINT32
  {
    Fs(g.sb, g.disk[g.inodes[n].addrs[NDIRECT] := SetWord(g.disk[g.inodes[n].addrs[NDIRECT]], j, b)], g.inodes,
       g.owner[b := Used(n, NDIRECT + j)])
  }

  lemma WordStoredSlots(g: Fs, n: nat, j: nat, b: nat)
    requires FsOk(g) && n < |g.inodes| && j < NINDIRECT && 0 < g.inodes[n].addrs[NDIRECT] < |g.disk| && b < g.sb.size
    ensures SlotSet(g, WordStored(g, n, j, b), n, NDIRECT + j, b)
  {
    hide BitOf, Word, SetWord;
    var g', k, r := WordStored(g, n, j, b), NDIRECT + j, g.inodes[n].addrs[NDIRECT];
    assert SlotOk(g, n, ROOT);
    forall m, i | 0 <= m < |g.inodes| && 0 <= i <= MAXFILE
      ensures SlotVal(g'.disk, g'.inodes[m], i) == if m == n && i == k then b else SlotVal(g.disk, g.inodes[m], i)
    {
      assert SlotOk(g, m, ROOT);
      if NDIRECT <= i < MAXFILE && m == n {
        WordOfSetWord(g.disk[r], j, b, i - NDIRECT);
      }
    }
  }

  lemma WordStoredOk(g: Fs, n: nat, j: nat, b: nat)
    requires FsOk(g) && n < |g.inodes| && j < NINDIRECT && 0 < g.inodes[n].addrs[NDIRECT] < |g.disk| && b < g.sb.size
    requires SlotVal(g.disk, g.inodes[n], NDIRECT + j) == 0 && g.owner[b] == Taken && g.disk[b] == Zeros()
    ensures FsOk(WordStored(g, n, j, b)) && SameFiles(g, WordStored(g, n, j, b))
    ensures SlotSet(g, WordStored(g, n, j, b), n, NDIRECT + j, b)
  {
    hide Word, SetWord, SlotVal, Bit;
    var g', k, r := WordStored(g, n, j, b), NDIRECT + j, g.inodes[n].addrs[NDIRECT];
    RootSlot(g, n);
    WordStoredSlots(g, n, j, b);
    SlotSetSlots(g, g', n, k, b);
    SlotSetFiles(g, g', n, k, b);
    forall c | 0 <= c < g.sb.size
      ensures BitBlock(g.sb, c) < |g.disk| && BitOf(g.sb, g'.disk, c) == BitOf(g.sb, g.disk, c) {
      BitBlockIn(g, c);
    }
  }

  lemma RootSlot(g: Fs, n: nat)
    requires FsOk(g) && n < |g.inodes| && g.inodes[n].addrs[NDIRECT] != 0
    ensures var r := g.inodes[n].addrs[NDIRECT];
            g.sb.dstart <= r < g.sb.size && r < |g.disk| && g.owner[r] == Used(n, ROOT)
  {
    SlotBlock(g, n, ROOT);
  }

  // ---- Writing a data block ----

  function DataWritten(g: Fs, n: nat, bn: nat, blk: Block): Fs
    requires n < |g.inodes| && InodeOk(g.inodes[n]) && bn < MAXFILE && BlockOf(g, n, bn) < |g.disk|
  {
    Fs(g.sb, g.disk[BlockOf(g, n, bn) := blk], g.inodes, g.owner)
  }

  /** Only the bytes of that block of that file change. */
  lemma DataWrittenOk(g: Fs, n: nat, bn: nat, blk: Block)
    requires FsOk(g) && n < |g.inodes| && bn < MAXFILE && 0 < BlockOf(g, n, bn) < |g.disk|
    ensures FsOk(DataWritten(g, n, bn, blk)) && SameSlots(g, DataWritten(g, n, bn, blk))
    ensures forall m, o :: 0 <= m < |g.inodes| && 0 <= o < MAXFILE * BSIZE ==>
              FileByte(DataWritten(g, n, bn, blk), m, o) == if m == n && o / BSIZE == bn then blk[o % BSIZE]
                else FileByte(g, m, o)
  {
    hide Word, Bit;
    var g', a := DataWritten(g, n, bn, blk), BlockOf(g, n, bn);
    SlotBlock(g, n, bn);
    forall m, k | 0 <= m < |g.inodes| && 0 <= k <= MAXFILE
      ensures SlotVal(g'.disk, g'.inodes[m], k) == SlotVal(g.disk, g.inodes[m], k)
    {
      assert SlotOk(g, m, ROOT);
    }
    SlotsKept(g, g');
    forall c | 0 <= c < g.sb.size
      ensures BitBlock(g.sb, c) < |g.disk| && BitOf(g.sb, g'.disk, c) == BitOf(g.sb, g.disk, c) {
      BitBlockIn(g, c);
    }
    hide SlotVal, BitOf;
    forall m, o | 0 <= m < |g.inodes| && 0 <= o < MAXFILE * BSIZE
      ensures FileByte(g', m, o) == if m == n && o / BSIZE == bn then blk[o % BSIZE] else FileByte(g, m, o)
    {
      assert SlotOk(g, m, o / BSIZE);
    }
  }

  /** ip->size = sz. */
  function Sized(g: Fs, n: nat, sz: nat): Fs
    requires n < |g.inodes|
  {
    Fs(g.sb, g.disk, g.inodes[n := Inode(sz, g.inodes[n].addrs)], g.owner)
  }

  lemma SizedOk(g: Fs, n: nat, sz: nat)
    requires FsOk(g) && n < |g.inodes| && sz <= MAXFILE * BSIZE
    ensures FsOk(Sized(g, n, sz)) && SameSlots(g, Sized(g, n, sz))
    ensures forall m, o :: 0 <= m < |g.inodes| && 0 <= o < MAXFILE * BSIZE ==>
            FileByte(Sized(g, n, sz), m, o) == FileByte(g, m, o)
  {
    hide Bit, Word, BitOf;
    var g' := Sized(g, n, sz);
    forall m, k | 0 <= m < |g.inodes| && 0 <= k <= MAXFILE
      ensures SlotVal(g'.disk, g'.inodes[m], k) == SlotVal(g.disk, g.inodes[m], k)
    {
    }
    SlotsKept(g, g');
  }

  // ---- Freeing blocks ----

  /** Slots lo .. hi of inode n still hold numbers of blocks that are free by now. */
  ghost predicate SlotsBut(g: Fs, n: nat, lo: nat, hi: nat) {
    && (forall m :: 0 <= m < |g.inodes| ==> InodeOk(g.inodes[m]))
    && (forall m, k :: 0 <= m < |g.inodes| && 0 <= k <= MAXFILE && !(m == n && lo <= k < hi) ==> SlotOk(g, m, k))
    && (forall b :: 0 <= b < |g.owner| ==> OwnerOk(g, b))
    && (forall b :: 0 <= b < |g.owner| && g.owner[b].Used? && g.owner[b].n == n ==> !(lo <= g.owner[b].k < hi))
  }

  function Freed(g: Fs, b: nat): Fs
    requires BitBlock(g.sb, b) < |g.disk| && b < |g.owner|
  {
    Fs(g.sb, Mark(g.sb, g.disk, b, false), g.inodes, g.owner[b := Unused])
  }

  lemma FreedBits(g: Fs, b: nat)
    requires Bits(g) && g.sb.dstart <= b < g.sb.size && BitBlock(g.sb, b) < |g.disk|
    ensures Bits(Freed(g, b))
  {
    hide Bit, MarkBlock;
    var g' := Freed(g, b);
    forall c | 0 <= c < g.sb.size
      ensures BitBlock(g.sb, c) < |g.disk| && (BitOf(g.sb, g'.disk, c) <==> g'.owner[c] != Unused) {
      BitBlockIn(g, c);
      MarkAt(g.sb, g.disk, b, false, c);
    }
  }

  lemma SkipFree(g: Fs, n: nat, lo: nat, k: nat)
    requires SlotsBut(g, n, lo, k) && n < |g.inodes| && k <= MAXFILE && SlotVal(g.disk, g.inodes[n], k) == 0
    ensures SlotsBut(g, n, lo, k + 1)
  {
    hide SlotVal;
    forall b | 0 <= b < |g.owner| && g.owner[b].Used? && g.owner[b].n == n ensures g.owner[b].k != k {
      assert OwnerOk(g, b);
    }
  }

  /** The block in slot k of inode n is freed: its bit was set. */
  lemma FreedSlot(g: Fs, n: nat, lo: nat, k: nat)
    requires Bits(g) && SlotsBut(g, n, lo, k) && n < |g.inodes| && lo <= k <= MAXFILE
    requires SlotVal(g.disk, g.inodes[n], k) != 0
    ensures var b := SlotVal(g.disk, g.inodes[n], k);
            && g.sb.dstart <= b < g.sb.size && BitBlock(g.sb, b) < |g.disk| && b < |g.owner| && BitOf(g.sb, g.disk, b)
            && Bits(Freed(g, b)) && SlotsBut(Freed(g, b), n, lo, k + 1) && SameSlots(g, Freed(g, b))
            && g.owner[b] == Used(n, k)
  {
    hide Bit, MarkBlock, Word;
    var b := SlotVal(g.disk, g.inodes[n], k);
    assert SlotOk(g, n, k);
    BitBlockIn(g, b);
    var g' := Freed(g, b);
    FreedBits(g, b);
    FreedSlots(g, n, lo, k, b);
    hide SlotVal;
    forall m, j | 0 <= m < |g.inodes| && 0 <= j <= MAXFILE && !(m == n && lo <= j < k + 1) ensures SlotOk(g', m, j) {
      assert SlotOk(g, m, j);
    }
    forall c | 0 <= c < |g.owner|
      ensures OwnerOk(g', c) && (g'.owner[c].Used? && g'.owner[c].n == n ==> !(lo <= g'.owner[c].k < k + 1)) {
      assert OwnerOk(g, c);
    }
  }

  lemma FreedSlots(g: Fs, n: nat, lo: nat, k: nat, b: nat)
    requires Bits(g) && SlotsBut(g, n, lo, k) && n < |g.inodes| && lo <= k <= MAXFILE && b < g.sb.size
    requires BitBlock(g.sb, b) < |g.disk|
    ensures SameSlots(g, Freed(g, b))
  {
    hide Bit, MarkBlock, Word, BitOf;
    var g' := Freed(g, b);
    BitBlockIn(g, b);
    forall m, j | 0 <= m < |g.inodes| && 0 <= j <= MAXFILE
      ensures SlotVal(g'.disk, g'.inodes[m], j) == SlotVal(g.disk, g.inodes[m], j)
    {
      assert SlotOk(g, m, ROOT);
    }
  }

  /** ip->addrs[i] = 0, once every block it led to is free. */
  function AddrCleared(g: Fs, n: nat, i: nat): Fs
    requires n < |g.inodes| && i < |g.inodes[n].addrs|
  {
    Fs(g.sb, g.disk, g.inodes[n := Inode(g.inodes[n].size, g.inodes[n].addrs[i := 0])], g.owner)
  }

  lemma AddrClearedOk(g: Fs, n: nat, i: nat, hi: nat)
    requires Bits(g) && SlotsBut(g, n, i, hi) && n < |g.inodes| && i <= NDIRECT
    requires hi == (if i == NDIRECT then ROOT + 1 else i + 1)
    ensures FsOk(AddrCleared(g, n, i))
    ensures var g' := AddrCleared(g, n, i);
            forall m, k :: 0 <= m < |g.inodes| && 0 <= k <= MAXFILE ==>
              SlotVal(g'.disk, g'.inodes[m], k) == if m == n && i <= k < hi then 0 else SlotVal(g.disk, g.inodes[m], k)
  {
    hide Bit, Word, BitOf;
    var g' := AddrCleared(g, n, i);
    forall m, k | 0 <= m < |g.inodes| && 0 <= k <= MAXFILE
      ensures SlotVal(g'.disk, g'.inodes[m], k) == if m == n && i <= k < hi then 0 else SlotVal(g.disk, g.inodes[m], k)
    {
    }
    hide SlotVal;
    forall m, k | 0 <= m < |g.inodes| && 0 <= k <= MAXFILE ensures SlotOk(g', m, k) {
      if !(m == n && i <= k < hi) {
        assert SlotOk(g, m, k);
      }
    }
    forall b | 0 <= b < |g.owner| ensures OwnerOk(g', b) {
      assert OwnerOk(g, b);
    }
  }

  lemma SlotsAll(g: Fs, n: nat, lo: nat)
    requires Slots(g)
    ensures SlotsBut(g, n, lo, lo)
  {
  }
}
