/** Files as byte sequences, the blocks a write will have to allocate, and the blocks it
    will have to log (kernel/fs.c:451-517, kernel/file.c:148-175). */
module FsFiles {
  import opened Common
  import opened Blocks
  import opened FsSpec
  import opened FsChanges

  // ---- Free blocks ----

  ghost function FreeSet(g: Fs): set<nat> {
    set b | 0 <= b < |g.owner| && g.owner[b] == Unused
  }

  ghost predicate NoneTaken(g: Fs) {
    forall b :: 0 <= b < |g.owner| ==> g.owner[b] != Taken
  }

  lemma FreeSetLess(g: Fs, g': Fs, b: nat)
    requires b < |g.owner| && g.owner[b] == Unused && |g'.owner| == |g.owner|
    requires g'.owner[b] != Unused
    requires forall c :: 0 <= c < |g.owner| && c != b ==> (g'.owner[c] == Unused <==> g.owner[c] == Unused)
    ensures FreeSet(g') == FreeSet(g) - {b} && |FreeSet(g')| == |FreeSet(g)| - 1
  {
    assert b in FreeSet(g);
  }

  // ---- What bmap allocates ----

  function Root(g: Fs, n: nat): nat
    requires n < |g.inodes| && InodeOk(g.inodes[n])
  {
    g.inodes[n].addrs[NDIRECT]
  }

  function RootSet(g: Fs, n: nat): set<nat>
    requires n < |g.inodes| && InodeOk(g.inodes[n])
  {
    if Root(g, n) == 0 then {} else {Root(g, n)}
  }

  /** Blocks that bmap(n, bn) must allocate. */
  function BmapCost(g: Fs, n: nat, bn: nat): nat
    requires n < |g.inodes| && InodeOk(g.inodes[n]) && bn < MAXFILE
  {
    (if BlockOf(g, n, bn) == 0 then 1 else 0) + (if bn >= NDIRECT && Root(g, n) == 0 then 1 else 0)
  }

  /** File blocks bn .. bn + k that are not there. */
  function Missing(g: Fs, n: nat, bn: nat, k: nat): nat
    requires n < |g.inodes| && InodeOk(g.inodes[n]) && bn + k <= MAXFILE
    decreases k
  {
    if k == 0 then 0 else (if BlockOf(g, n, bn) == 0 then 1 else 0) + Missing(g, n, bn + 1, k - 1)
  }

  /** Blocks that must be allocated for file blocks bn .. bn + k to be there. */
  function Need(g: Fs, n: nat, bn: nat, k: nat): nat
    requires n < |g.inodes| && InodeOk(g.inodes[n]) && bn + k <= MAXFILE
  {
    Missing(g, n, bn, k) + (if k > 0 && bn + k > NDIRECT && Root(g, n) == 0 then 1 else 0)
  }

  /** bmap(n, bn) has made block bn, and the indirect block if it takes one, and changed
      no other slot and no file. */
  ghost predicate Bmapped(g: Fs, g': Fs, n: nat, bn: nat) {
    && n < |g.inodes| && bn < MAXFILE && |g'.inodes| == |g.inodes| && g'.sb == g.sb && |g'.disk| == |g.disk|
    && (forall m :: 0 <= m < |g.inodes| ==> InodeOk(g.inodes[m]) && InodeOk(g'.inodes[m]))
    && (forall m :: 0 <= m < |g.inodes| && m != n ==> g'.inodes[m] == g.inodes[m])
    && (forall m, k :: 0 <= m < |g.inodes| && 0 <= k <= MAXFILE && !(m == n && (k == bn || k == ROOT)) ==>
          SlotVal(g'.disk, g'.inodes[m], k) == SlotVal(g.disk, g.inodes[m], k))
    && BlockOf(g', n, bn) != 0 && (BlockOf(g, n, bn) != 0 ==> BlockOf(g', n, bn) == BlockOf(g, n, bn))
    && (if bn < NDIRECT || Root(g, n) != 0 then Root(g', n) == Root(g, n) else Root(g', n) != 0)
    && SameFiles(g, g')
  }

  lemma {:induction false} MissingKept(g: Fs, g': Fs, n: nat, bn: nat, k: nat, at: nat)
    requires Bmapped(g, g', n, at) && at < bn && bn + k <= MAXFILE
    ensures Missing(g', n, bn, k) == Missing(g, n, bn, k)
    decreases k
  {
    hide SlotVal, SameFiles, FileByte;
    if k > 0 {
      MissingKept(g, g', n, bn + 1, k - 1, at);
    }
  }

  /** The cost of a range is that of its first block and of the rest after it. */
  lemma NeedStep(g: Fs, g': Fs, n: nat, bn: nat, k: nat)
    requires Bmapped(g, g', n, bn) && k > 0 && bn + k <= MAXFILE
    ensures Need(g, n, bn, k) == BmapCost(g, n, bn) + Need(g', n, bn + 1, k - 1)
  {
    hide SlotVal, SameFiles, FileByte;
    MissingKept(g, g', n, bn + 1, k - 1, bn);
  }

  // ---- The log bound ----

  /** No block below size is missing. */
  ghost predicate NoHoles(g: Fs, n: nat)
    requires n < |g.inodes| && InodeOk(g.inodes[n])
  {
    forall bn :: 0 <= bn < MAXFILE && bn * BSIZE < g.inodes[n].size ==> BlockOf(g, n, bn) != 0
  }

  /** ... in any file. */
  ghost predicate AllWhole(g: Fs) {
    forall m :: 0 <= m < |g.inodes| ==> InodeOk(g.inodes[m]) && NoHoles(g, m)
  }

  /** Every inode but n has the blocks it had. */
  ghost predicate OthersBlocks(g: Fs, g': Fs, n: nat) {
    && |g'.inodes| == |g.inodes|
    && (forall m :: 0 <= m < |g.inodes| && m != n ==> InodeOk(g.inodes[m]) && InodeOk(g'.inodes[m]))
    && forall m, i :: 0 <= m < |g.inodes| && m != n && 0 <= i < MAXFILE ==> BlockOf(g', m, i) == BlockOf(g, m, i)
  }

  lemma SelfOthers(g: Fs, n: nat)
    requires Slots(g)
    ensures OthersBlocks(g, g, n)
  {
    hide BlockOf;
  }

  lemma OthersTrans(g: Fs, g1: Fs, g2: Fs, n: nat)
    requires OthersBlocks(g, g1, n) && OthersBlocks(g1, g2, n)
    ensures OthersBlocks(g, g2, n)
  {
    hide BlockOf;
  }

  lemma SlotsOthers(g: Fs, g': Fs, n: nat)
    requires SameSlots(g, g')
    ensures OthersBlocks(g, g', n)
  {
    hide SlotVal;
  }

  lemma BmappedOthers(g: Fs, g': Fs, n: nat, bn: nat)
    requires Bmapped(g, g', n, bn)
    ensures OthersBlocks(g, g', n)
  {
    hide SlotVal, FileByte, SameFiles, Root;
  }

  lemma OtherWhole(g: Fs, g': Fs, n: nat, m: nat)
    requires OthersBlocks(g, g', n) && m < |g.inodes| && m != n && g'.inodes[m].size == g.inodes[m].size
    requires AllWhole(g)
    ensures InodeOk(g'.inodes[m]) && NoHoles(g', m)
  {
    hide BlockOf;
  }

  lemma BmappedWhole(g: Fs, g': Fs, n: nat, bn: nat)
    requires Bmapped(g, g', n, bn) && AllWhole(g)
    ensures AllWhole(g')
  {
    hide SlotVal, FileByte;
    BmappedOthers(g, g', n, bn);
    forall m | 0 <= m < |g'.inodes| ensures InodeOk(g'.inodes[m]) && NoHoles(g', m) {
      assert SameFile(g, g', m);
      if m != n {
        OtherWhole(g, g', n, m);
      } else {
        forall i | 0 <= i < MAXFILE && i != bn ensures BlockOf(g', n, i) == BlockOf(g, n, i) {
        }
      }
    }
  }

  /** A byte below size is in a block that is there. */
  lemma WholeAt(g: Fs, n: nat, off: nat)
    requires n < |g.inodes| && InodeOk(g.inodes[n]) && NoHoles(g, n) && off < g.inodes[n].size <= MAXFILE * BSIZE
    ensures off / BSIZE < MAXFILE && BlockOf(g, n, off / BSIZE) != 0
  {
    hide BlockOf;
  }

  lemma {:induction false} MissingMax(g: Fs, n: nat, bn: nat, k: nat)
    requires n < |g.inodes| && InodeOk(g.inodes[n]) && bn + k <= MAXFILE
    ensures Missing(g, n, bn, k) <= k
    decreases k
  {
    if k > 0 {
      MissingMax(g, n, bn + 1, k - 1);
    }
  }

  /** File blocks that bytes off .. off + len lie in. */
  function Touched(off: nat, len: nat): nat {
    if len == 0 then 0 else (off + len - 1) / BSIZE - off / BSIZE + 1
  }

  /** A write of three blocks' worth of bytes touches at most four blocks, and where it
      touches four the first is there already. */
  lemma ChunkNeeds(g: Fs, n: nat, off: nat, len: nat)
    requires n < |g.inodes| && InodeOk(g.inodes[n]) && NoHoles(g, n)
    requires off <= g.inodes[n].size && off + len <= MAXFILE * BSIZE && len <= 3 * BSIZE
    ensures Touched(off, len) <= 4 && off / BSIZE + Touched(off, len) <= MAXFILE
    ensures Need(g, n, off / BSIZE, Touched(off, len)) <= 4
  {
    hide SlotVal;
    var bn, k := off / BSIZE, Touched(off, len);
    if k == 4 {
      assert off % BSIZE != 0;
      assert bn * BSIZE < g.inodes[n].size && BlockOf(g, n, bn) != 0;
      MissingMax(g, n, bn + 1, 3);
    } else {
      MissingMax(g, n, bn, k);
    }
  }

  // ---- bmap's steps ----

  /** A block was taken from the free set and put in an empty slot: no file changes. */
  ghost predicate Grew(g: Fs, g': Fs, n: nat, k: nat, b: nat) {
    && g'.sb == g.sb && |g'.disk| == |g.disk| && SlotSet(g, g', n, k, b) && 0 < b < |g.owner|
    && SlotVal(g.disk, g.inodes[n], k) == 0
    && (forall m :: 0 <= m < |g.inodes| && m != n ==> g'.inodes[m] == g.inodes[m])
    && SameFiles(g, g') && FsOk(g') && NoneTaken(g') && |FreeSet(g')| == |FreeSet(g)| - 1
  }

  lemma SlotsThen(g: Fs, g1: Fs, g2: Fs, n: nat, k: nat, b: nat)
    requires SameSlots(g, g1) && g1.inodes == g.inodes && SlotSet(g1, g2, n, k, b)
    ensures SlotSet(g, g2, n, k, b)
  {
    hide SlotVal;
  }

  lemma FilesTrans(g: Fs, g1: Fs, g2: Fs)
    requires SameFiles(g, g1) && SameFiles(g1, g2)
    ensures SameFiles(g, g2)
  {
    hide FileByte;
    forall n | 0 <= n < |g.inodes| ensures SameFile(g, g2, n) {
      assert SameFile(g, g1, n) && SameFile(g1, g2, n);
    }
  }

  lemma GrewAddr(g: Fs, n: nat, i: nat, b: nat)
    requires FsOk(g) && NoneTaken(g) && n < |g.inodes| && i <= NDIRECT && g.inodes[n].addrs[i] == 0
    requires b < g.sb.size && g.owner[b] == Unused && BitBlock(g.sb, b) < |g.disk|
    ensures Grew(g, AddrStored(Alloced(g, b), n, i, b), n, if i == NDIRECT then ROOT else i, b)
  {
    hide SameSlots, SameFiles, Slots, BitOf, MarkBlock, SlotSet;
    var g1 := Alloced(g, b);
    InodesOk(g, n);
    var g2, k := AddrStored(g1, n, i, b), if i == NDIRECT then ROOT else i;
    AllocedOk(g, b);
    AddrStoredOk(g1, n, i, b);
    SlotsThen(g, g1, g2, n, k, b);
    FilesTrans(g, g1, g2);
    FreeSetLess(g, g2, b);
  }

  lemma InodesOk(g: Fs, n: nat)
    requires Slots(g) && n < |g.inodes|
    ensures InodeOk(g.inodes[n])
  {
  }

  lemma GrewWord(g: Fs, n: nat, j: nat, b: nat)
    requires FsOk(g) && NoneTaken(g) && n < |g.inodes| && j < NINDIRECT && g.inodes[n].addrs[NDIRECT] != 0
    requires SlotVal(g.disk, g.inodes[n], NDIRECT + j) == 0
    requires b < g.sb.size && g.owner[b] == Unused && BitBlock(g.sb, b) < |g.disk|
    ensures var r := g.inodes[n].addrs[NDIRECT];
            r < |g.disk| && Alloced(g, b).disk[r] == g.disk[r]
              && Grew(g, WordStored(Alloced(g, b), n, j, b), n, NDIRECT + j, b)
  {
    hide SameFiles, Slots, BitOf, MarkBlock, SlotVal, SlotSet;
    var g1 := Alloced(g, b);
    RootSlot(g, n);
    AllocedOk(g, b);
    InodesOk(g, n);
    BitBlockIn(g, b);
    var g2 := WordStored(g1, n, j, b);
    WordStoredOk(g1, n, j, b);
    SlotsThen(g, g1, g2, n, NDIRECT + j, b);
    FilesTrans(g, g1, g2);
    FreeSetLess(g, g2, b);
  }

  lemma GrewBmapped(g: Fs, g': Fs, n: nat, bn: nat, b: nat)
    requires Slots(g) && Grew(g, g', n, bn, b) && bn < MAXFILE
    ensures Bmapped(g, g', n, bn)
  {
    hide SlotVal, FileByte, FsOk;
    assert SlotVal(g'.disk, g'.inodes[n], ROOT) == SlotVal(g.disk, g.inodes[n], ROOT);
    RootIs(g, n);
    RootIs(g', n);
    if bn >= NDIRECT && Root(g', n) == 0 {
      NoRootNoBlock(g', n, bn);
    }
  }

  lemma RootIs(g: Fs, n: nat)
    requires n < |g.inodes| && InodeOk(g.inodes[n])
    ensures SlotVal(g.disk, g.inodes[n], ROOT) == Root(g, n)
  {
  }

  /** First the indirect block, then the block it lists. */
  lemma RootThen(g: Fs, g1: Fs, g2: Fs, n: nat, bn: nat, r: nat)
    requires Slots(g) && Grew(g, g1, n, ROOT, r) && Bmapped(g1, g2, n, bn) && NDIRECT <= bn
    ensures Bmapped(g, g2, n, bn)
  {
    hide SlotVal, FileByte, FsOk, Root;
    assert SlotVal(g1.disk, g1.inodes[n], ROOT) == r;
    RootIs(g, n);
    RootIs(g1, n);
    FilesTrans(g, g1, g2);
  }

  lemma SelfBmapped(g: Fs, n: nat, bn: nat)
    requires Slots(g) && n < |g.inodes| && bn < MAXFILE && InodeOk(g.inodes[n]) && BlockOf(g, n, bn) != 0
    requires (bn >= NDIRECT ==> Root(g, n) != 0)
    ensures Bmapped(g, g, n, bn)
  {
    hide FileByte, SlotVal;
  }

  // ---- Small facts ----

  lemma DirectIs(g: Fs, n: nat, bn: nat)
    requires n < |g.inodes| && InodeOk(g.inodes[n]) && bn < NDIRECT
    ensures BlockOf(g, n, bn) == g.inodes[n].addrs[bn]
  {
  }

  lemma IndirectIs(g: Fs, n: nat, j: nat)
    requires n < |g.inodes| && InodeOk(g.inodes[n]) && j < NINDIRECT && 0 < Root(g, n) < |g.disk|
    ensures BlockOf(g, n, NDIRECT + j) == Word(g.disk[Root(g, n)], j)
  {
  }

  lemma NoRootNoBlock(g: Fs, n: nat, bn: nat)
    requires n < |g.inodes| && InodeOk(g.inodes[n]) && NDIRECT <= bn < MAXFILE && Root(g, n) == 0
    ensures BlockOf(g, n, bn) == 0
  {
  }

  lemma FreeOne(g: Fs)
    requires |FreeSet(g)| >= 1
    ensures FreeSet(g) != {}
  {
    hide FreeSet;
  }

  lemma GrewValid(g: Fs, g': Fs, n: nat, k: nat, b: nat)
    requires Grew(g, g', n, k, b)
    ensures FsOk(g') && NoneTaken(g')
  {
    hide SlotVal, FreeSet;
  }

  lemma GrewFacts(g: Fs, g': Fs, n: nat, k: nat, b: nat)
    requires Grew(g, g', n, k, b) && k <= MAXFILE
    ensures n < |g'.inodes| && InodeOk(g'.inodes[n]) && SlotVal(g'.disk, g'.inodes[n], k) == b && b != 0
    ensures |FreeSet(g')| == |FreeSet(g)| - 1
    ensures forall bn :: 0 <= bn < MAXFILE && bn != k ==> BlockOf(g', n, bn) == BlockOf(g, n, bn)
    ensures k != ROOT ==> Root(g', n) == Root(g, n)
    ensures k == ROOT ==> Root(g', n) == b
    ensures k < MAXFILE ==> BlockOf(g', n, k) == b
  {
    hide SlotVal, FreeSet, FsOk, FileByte;
    RootIs(g, n);
    RootIs(g', n);
    assert SlotVal(g'.disk, g'.inodes[n], ROOT) == if k == ROOT then b else SlotVal(g.disk, g.inodes[n], ROOT);
  }

  /** Bit bi of the bitmap block that starts at b. */
  lemma BitIs(g: Fs, b: nat, bi: nat)
    requires Bits(g) && b % BPB == 0 && bi < BPB && b + bi < g.sb.size
    ensures BitBlock(g.sb, b) < |g.disk| && |g.owner| == g.sb.size <= |g.disk| && g.sb.size < UINT32
    ensures Bit(g.disk[BitBlock(g.sb, b)][bi / 8], bi % 8) <==> g.owner[b + bi] != Unused
    ensures BitBlock(g.sb, b + bi) == BitBlock(g.sb, b) && (b + bi) % BPB == bi
  {
    hide Bit;
    assert (b + bi) / BPB == b / BPB && (b + bi) % BPB == bi;
    BitBlockIn(g, b + bi);
    assert BitOf(g.sb, g.disk, b + bi) <==> g.owner[b + bi] != Unused;
  }

  lemma SomeFree(g: Fs)
    requires Bits(g) && FreeSet(g) != {}
    ensures |g.owner| == g.sb.size && exists c :: 0 <= c < g.sb.size && g.owner[c] == Unused
  {
    var c :| c in FreeSet(g);
  }

  // ---- Each block once ----

  ghost predicate Names(g: Fs, n: nat, k: nat, b: nat) {
    n < |g.inodes| && InodeOk(g.inodes[n]) && k <= MAXFILE && b != 0 && SlotVal(g.disk, g.inodes[n], k) == b
  }

  /** A data block's bit is set exactly when some slot names it, and then only one does;
      no slot names metadata. */
  lemma BlockOnce(g: Fs, b: nat)
    requires FsOk(g) && NoneTaken(g) && b < g.sb.size && BitBlock(g.sb, b) < |g.disk|
    ensures b < g.sb.dstart ==> BitOf(g.sb, g.disk, b) && forall n, k :: !Names(g, n, k, b)
    ensures b >= g.sb.dstart ==> (BitOf(g.sb, g.disk, b) <==> exists n, k :: Names(g, n, k, b))
    ensures forall n, k, m, j :: Names(g, n, k, b) && Names(g, m, j, b) ==> n == m && k == j
  {
    hide SlotVal, Bit;
    forall n, k | Names(g, n, k, b) ensures g.owner[b] == Used(n, k) {
      assert SlotOk(g, n, k);
    }
    if g.owner[b].Used? {
      assert OwnerOk(g, b);
      assert Names(g, g.owner[b].n, g.owner[b].k, b);
    }
  }

  // ---- A fresh file system ----

  /** mkfs's balloc: the bits of the first k blocks are set. */
  function Marked(sb: Super, disk: DiskImage, k: nat): (r: DiskImage)
    requires BitBlock(sb, k) < |disk|
    ensures |r| == |disk|
  {
    if k == 0 then disk else
      assert (k - 1) / BPB <= k / BPB;
      Mark(sb, Marked(sb, disk, k - 1), k - 1, true)
  }

  lemma {:induction false} MarkedAt(sb: Super, disk: DiskImage, k: nat, c: nat)
    requires BitBlock(sb, k) < |disk| && BitBlock(sb, c) < |disk|
    ensures BitOf(sb, Marked(sb, disk, k), c) <==> c < k || BitOf(sb, disk, c)
  {
    hide BitOf, Mark;
    if k > 0 {
      assert (k - 1) / BPB <= k / BPB;
      MarkedAt(sb, disk, k - 1, c);
      MarkAt(sb, Marked(sb, disk, k - 1), k - 1, true, c);
    }
  }

  lemma {:induction false} NoBits(k: nat)
    ensures !Bit(0, k)
  {
    if k > 0 {
      NoBits(k - 1);
    }
  }

  function ZeroDisk(n: nat): DiskImage {
    seq(n, i => Zeros())
  }

  function EmptyInodes(n: nat): seq<Inode> {
    seq(n, i => Inode(0, seq(NDIRECT + 1, j => 0)))
  }

  function FirstOwners(sb: Super): seq<Owner> {
    seq(sb.size, b => if b < sb.dstart then Meta else Unused)
  }

  lemma EmptyWhole(g: Fs)
    requires g.inodes == EmptyInodes(|g.inodes|)
    ensures AllWhole(g)
  {
    hide BlockOf;
  }

  lemma EmptySlots(g: Fs)
    requires g.inodes == EmptyInodes(|g.inodes|) && forall b :: 0 <= b < |g.owner| ==> g.owner[b] in {Meta, Unused}
    ensures Slots(g) && NoneTaken(g)
  {
    hide Word;
  }

  lemma FormatRoom(sb: Super)
    requires SuperOk(sb, ZeroDisk(sb.size))
    ensures forall b :: 0 <= b < sb.size ==> BitBlock(sb, b) < sb.size
    ensures BitBlock(sb, sb.dstart) < sb.size
  {
    forall b | 0 <= b < sb.size ensures BitBlock(sb, b) < sb.size {
      assert b / BPB <= sb.size / BPB;
    }
    assert sb.dstart / BPB <= sb.size / BPB;
  }

  lemma FormatBits(sb: Super, b: nat)
    requires SuperOk(sb, ZeroDisk(sb.size)) && b < sb.size && BitBlock(sb, b) < sb.size
    requires BitBlock(sb, sb.dstart) < sb.size
    ensures var d := Marked(sb, ZeroDisk(sb.size), sb.dstart);
            BitBlock(sb, b) < |d| && (BitOf(sb, d, b) <==> b < sb.dstart)
  {
    hide Marked, Mark, Bit;
    MarkedAt(sb, ZeroDisk(sb.size), sb.dstart, b);
    NoBits(b % BPB % 8);
  }

  /** Metadata marked, everything else free, all inodes empty: a sound file system. */
  lemma FormatOk(sb: Super)
    requires SuperOk(sb, ZeroDisk(sb.size))
    ensures BitBlock(sb, sb.dstart) < sb.size
    ensures var g := Fs(sb, Marked(sb, ZeroDisk(sb.size), sb.dstart), EmptyInodes(sb.ninodes), FirstOwners(sb));
            FsOk(g) && NoneTaken(g) && AllWhole(g)
  {
    hide Marked, Mark, BitOf, BitBlock, Slots, AllWhole, NoneTaken, EmptyInodes;
    FormatRoom(sb);
    var g := Fs(sb, Marked(sb, ZeroDisk(sb.size), sb.dstart), EmptyInodes(sb.ninodes), FirstOwners(sb));
    EmptyLength(sb.ninodes);
    EmptyWhole(g);
    EmptySlots(g);
    forall b | 0 <= b < sb.size ensures BitOf(sb, g.disk, b) <==> g.owner[b] != Unused {
      FormatBits(sb, b);
    }
  }

  lemma EmptyLength(n: nat)
    ensures |EmptyInodes(n)| == n
  {
  }
}
