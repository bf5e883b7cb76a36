/** What writes and reads of any length do to a file's bytes and blocks
    (kernel/fs.c:451-517, kernel/file.c:148-175). */
module FsWrites {
  import opened Common
  import opened Blocks
  import opened FsSpec
  import opened FsChanges
  import opened FsFiles

  // ---- Bytes written ----

  /** File n holds src from off on; otherwise files hold what they held. */
  ghost predicate Wrote(g: Fs, g': Fs, n: nat, off: nat, src: seq<Byte>) {
    && |g'.inodes| == |g.inodes| && n < |g.inodes| && InodeOk(g.inodes[n]) && InodeOk(g'.inodes[n])
    && (forall m :: 0 <= m < |g.inodes| && m != n ==> SameFile(g, g', m))
    && forall o :: 0 <= o < MAXFILE * BSIZE ==>
       FileByte(g', n, o) == if off <= o < off + |src| then src[o - off] else FileByte(g, n, o)
  }

  lemma WroteNone(g: Fs, n: nat, off: nat)
    requires Slots(g) && n < |g.inodes|
    ensures Wrote(g, g, n, off, [])
  {
    hide FileByte;
  }

  lemma WroteSame(g: Fs, g1: Fs, g2: Fs, n: nat, off: nat, src: seq<Byte>)
    requires Wrote(g, g1, n, off, src) && SameFiles(g1, g2)
    ensures Wrote(g, g2, n, off, src)
  {
    hide FileByte;
    assert SameFile(g1, g2, n);
    forall m | 0 <= m < |g.inodes| && m != n ensures SameFile(g, g2, m) {
      assert SameFile(g, g1, m) && SameFile(g1, g2, m);
    }
  }

  /** memmove into the buffer of a block. */
  function Patched(blk: Block, o: nat, s: seq<Byte>): Block
    requires o + |s| <= BSIZE
  {
    blk[..o] + s + blk[o + |s|..]
  }

  lemma PatchedAt(blk: Block, o: nat, s: seq<Byte>, i: nat)
    requires o + |s| <= BSIZE && i < BSIZE
    ensures Patched(blk, o, s)[i] == if o <= i < o + |s| then s[i - o] else blk[i]
  {
  }

  /** The next bytes of src go into the block they fall in. */
  lemma WroteMore(g: Fs, g1: Fs, n: nat, off: nat, src: seq<Byte>, tot: nat, m: nat)
    requires tot + m <= |src| && FsOk(g1) && Wrote(g, g1, n, off, src[..tot]) && off + |src| <= MAXFILE * BSIZE && m > 0
    requires var at := off + tot; m <= BSIZE - at % BSIZE && 0 < BlockOf(g1, n, at / BSIZE) < |g1.disk|
    ensures var at := off + tot;
            var blk := Patched(g1.disk[BlockOf(g1, n, at / BSIZE)], at % BSIZE, src[tot..tot + m]);
            Wrote(g, DataWritten(g1, n, at / BSIZE, blk), n, off, src[..tot + m])
              && FsOk(DataWritten(g1, n, at / BSIZE, blk))
  {
    hide SlotVal, Patched, Bits, Slots;
    var at := off + tot;
    var bn := at / BSIZE;
    var a, s := BlockOf(g1, n, bn), src[tot..tot + m];
    var blk := Patched(g1.disk[a], at % BSIZE, s);
    var g2 := DataWritten(g1, n, bn, blk);
    DataWrittenOk(g1, n, bn, blk);
    hide DataWritten;
    forall o | 0 <= o < MAXFILE * BSIZE
      ensures FileByte(g2, n, o) == if off <= o < off + (tot + m) then src[..tot + m][o - off] else FileByte(g, n, o)
    {
      if o / BSIZE == bn {
        PatchedAt(g1.disk[a], at % BSIZE, s, o % BSIZE);
        assert FileByte(g1, n, o) == g1.disk[a][o % BSIZE];
        assert at % BSIZE <= o % BSIZE < at % BSIZE + m <==> at <= o < at + m;
      }
    }
    hide FileByte;
    forall k | 0 <= k < |g.inodes| && k != n ensures SameFile(g, g2, k) {
      assert SameFile(g, g1, k);
      OtherFile(g1, n, bn, blk, k);
    }
  }

  lemma OtherFile(g: Fs, n: nat, bn: nat, blk: Block, k: nat)
    requires FsOk(g) && n < |g.inodes| && bn < MAXFILE && 0 < BlockOf(g, n, bn) < |g.disk| && k < |g.inodes| && k != n
    ensures SameFile(g, DataWritten(g, n, bn, blk), k)
  {
    hide SlotVal, FileByte;
    DataWrittenOk(g, n, bn, blk);
  }

  /** With the new size, the file is the old one with src spliced in at off. */
  lemma WroteContent(g: Fs, g': Fs, n: nat, off: nat, src: seq<Byte>)
    requires Wrote(g, g', n, off, src) && off <= g.inodes[n].size
    requires g'.inodes[n].size == (if off + |src| > g.inodes[n].size then off + |src| else g.inodes[n].size)
    ensures Content(g', n) == Spliced(Content(g, n), off, src)
    ensures forall m :: 0 <= m < |g.inodes| && m != n ==>
            InodeOk(g.inodes[m]) && InodeOk(g'.inodes[m]) && Content(g', m) == Content(g, m)
  {
    hide FileByte;
    forall m | 0 <= m < |g.inodes| && m != n
      ensures InodeOk(g.inodes[m]) && InodeOk(g'.inodes[m]) && Content(g', m) == Content(g, m) {
      assert SameFile(g, g', m);
    }
  }

  function Spliced(s: seq<Byte>, off: nat, t: seq<Byte>): seq<Byte>
    requires off <= |s|
  {
    s[..off] + t + (if off + |t| <= |s| then s[off + |t|..] else [])
  }

  // ---- Blocks filled ----

  /** File blocks bn .. bn + k are there, and the indirect block if one of them takes it;
      no other slot has changed. */
  ghost predicate Filled(g: Fs, g': Fs, n: nat, bn: nat, k: nat) {
    && n < |g.inodes| && bn + k <= MAXFILE && |g'.inodes| == |g.inodes| && InodeOk(g.inodes[n])
    && InodeOk(g'.inodes[n])
    && (forall i :: 0 <= i < MAXFILE ==>
          if bn <= i < bn + k then BlockOf(g', n, i) != 0
            && (BlockOf(g, n, i) != 0 ==> BlockOf(g', n, i) == BlockOf(g, n, i))
          else BlockOf(g', n, i) == BlockOf(g, n, i))
    && (if Root(g, n) != 0 || k == 0 || bn + k <= NDIRECT then Root(g', n) == Root(g, n) else Root(g', n) != 0)
    && OthersBlocks(g, g', n)
  }

  lemma FilledNone(g: Fs, n: nat, bn: nat)
    requires Slots(g) && n < |g.inodes| && InodeOk(g.inodes[n]) && bn <= MAXFILE
    ensures Filled(g, g, n, bn, 0)
  {
    hide SlotVal, Slots, OthersBlocks;
    SelfOthers(g, n);
  }

  lemma FilledBmap(g: Fs, g1: Fs, g2: Fs, n: nat, bn: nat, k: nat)
    requires Filled(g, g1, n, bn, k) && bn + k < MAXFILE && Bmapped(g1, g2, n, bn + k)
    ensures Filled(g, g2, n, bn, k + 1)
  {
    hide SlotVal, FileByte, SameFiles, Root, OthersBlocks;
    BmappedOthers(g1, g2, n, bn + k);
    OthersTrans(g, g1, g2, n);
    forall i | 0 <= i < MAXFILE && i != bn + k ensures BlockOf(g2, n, i) == BlockOf(g1, n, i) {
    }
  }

  lemma FilledSame(g: Fs, g1: Fs, g2: Fs, n: nat, bn: nat, k: nat)
    requires Filled(g, g1, n, bn, k) && SameSlots(g1, g2)
    ensures Filled(g, g2, n, bn, k)
  {
    hide SlotVal, Root, OthersBlocks;
    SlotsOthers(g1, g2, n);
    OthersTrans(g, g1, g2, n);
    RootIs(g1, n);
    RootIs(g2, n);
    forall i | 0 <= i < MAXFILE ensures BlockOf(g2, n, i) == BlockOf(g1, n, i) {
    }
  }

  lemma FilledHoles(g: Fs, g': Fs, n: nat, off: nat, len: nat)
    requires Filled(g, g', n, off / BSIZE, Touched(off, len)) && NoHoles(g, n) && off <= g.inodes[n].size
    requires off + len <= MAXFILE * BSIZE
    requires g'.inodes[n].size == (if off + len > g.inodes[n].size then off + len else g.inodes[n].size)
    ensures NoHoles(g', n)
  {
    hide SlotVal;
    forall bn | 0 <= bn < MAXFILE && bn * BSIZE < g'.inodes[n].size ensures BlockOf(g', n, bn) != 0 {
      if bn * BSIZE >= g.inodes[n].size {
        assert off / BSIZE <= bn <= (off + len - 1) / BSIZE;
      }
    }
  }

  /** A write of n that leaves no hole in it leaves none anywhere. */
  lemma WroteWhole(g: Fs, g': Fs, n: nat, off: nat, src: seq<Byte>)
    requires AllWhole(g) && Wrote(g, g', n, off, src) && Filled(g, g', n, off / BSIZE, Touched(off, |src|))
    requires Fits(g.inodes[n].size, off, |src|) && g'.inodes[n].size == Max(g.inodes[n].size, off + |src|)
    ensures AllWhole(g')
  {
    hide Filled, NoHoles, FileByte, Touched, OthersBlocks;
    FilledHoles(g, g', n, off, |src|);
    FilledOthers(g, g', n, off / BSIZE, Touched(off, |src|));
    forall m | 0 <= m < |g'.inodes| ensures InodeOk(g'.inodes[m]) && NoHoles(g', m) {
      if m != n {
        assert SameFile(g, g', m);
        OtherWhole(g, g', n, m);
      }
    }
  }

  lemma FilledOthers(g: Fs, g': Fs, n: nat, bn: nat, k: nat)
    requires Filled(g, g', n, bn, k)
    ensures OthersBlocks(g, g', n)
  {
    hide BlockOf, Root;
  }

  /** Freeing all blocks of an inode that is then empty leaves no hole. */
  lemma TruncWhole(g: Fs, g': Fs, n: nat)
    requires AllWhole(g) && Truncated(g, g', n)
    ensures AllWhole(g')
  {
    hide SlotVal, FileByte, OthersBlocks;
    forall m | 0 <= m < |g'.inodes| ensures InodeOk(g'.inodes[m]) && NoHoles(g', m) {
      if m != n {
        assert SameFile(g, g', m);
        OtherWhole(g, g', n, m);
      }
    }
  }

  // ---- filewrite's chunks ----

  /** filewrite's max. */
  const CHUNK := (MAXOPBLOCKS - 1 - 1 - 2) / 2 * BSIZE

  /** writei's tests: off is not past the end and the result fits in a file. */
  predicate Fits(size: nat, off: nat, len: nat) {
    off <= size && off + len <= MAXFILE * BSIZE
  }

  function Max(a: nat, b: nat): nat {
    if a > b then a else b
  }

  /** How many of len bytes filewrite gets into the file, chunk by chunk. */
  function Accepted(size: nat, off: nat, len: nat): (r: nat)
    ensures r <= len && (r > 0 ==> Fits(size, off, r))
    decreases len
  {
    var c := if len > CHUNK then CHUNK else len;
    if len == 0 || !Fits(size, off, c) then 0 else c + Accepted(Max(size, off + c), off + c, len - c)
  }

  /** All of it goes in exactly when all of it fits. */
  lemma {:induction false} AcceptedAll(size: nat, off: nat, len: nat)
    requires len > 0
    ensures Accepted(size, off, len) == len <==> off <= size && off + len <= MAXFILE * BSIZE
    decreases len
  {
    var c := if len > CHUNK then CHUNK else len;
    if len > c && Fits(size, off, c) {
      AcceptedAll(Max(size, off + c), off + c, len - c);
    }
  }

  lemma {:induction false} MissingSplit(g: Fs, n: nat, bn: nat, k: nat, j: nat)
    requires n < |g.inodes| && InodeOk(g.inodes[n]) && bn + k + j <= MAXFILE
    ensures Missing(g, n, bn, k + j) == Missing(g, n, bn, k) + Missing(g, n, bn + k, j)
    decreases k
  {
    hide BlockOf;
    if k > 0 {
      MissingSplit(g, n, bn + 1, k - 1, j);
    }
  }

  lemma {:induction false} MissingSame(g: Fs, g': Fs, n: nat, bn: nat, k: nat)
    requires n < |g.inodes| && InodeOk(g.inodes[n]) && n < |g'.inodes| && InodeOk(g'.inodes[n]) && bn + k <= MAXFILE
    requires forall i :: bn <= i < bn + k ==> BlockOf(g', n, i) == BlockOf(g, n, i)
    ensures Missing(g', n, bn, k) == Missing(g, n, bn, k)
    decreases k
  {
    hide BlockOf;
    if k > 0 {
      MissingSame(g, g', n, bn + 1, k - 1);
    }
  }

  lemma TouchedSplit(off: nat, c: nat, rest: nat)
    requires c > 0 && rest > 0 && off + c + rest <= MAXFILE * BSIZE
    ensures var a, k, all, b, j := off / BSIZE, Touched(off, c), Touched(off, c + rest), (off + c) / BSIZE,
              Touched(off + c, rest);
            0 < k <= all && 0 < j && b + j == a + all <= MAXFILE && (b == a + k || b == a + k - 1)
  {
  }

  /** A write of c + rest bytes needs what the first c need and then what the rest do. */
  lemma NeedAfter(g: Fs, g': Fs, n: nat, off: nat, c: nat, rest: nat)
    requires c > 0 && rest > 0 && off + c + rest <= MAXFILE * BSIZE
    requires Filled(g, g', n, off / BSIZE, Touched(off, c))
    ensures (off + c) / BSIZE + Touched(off + c, rest) <= MAXFILE && off / BSIZE + Touched(off, c + rest) <= MAXFILE
    ensures Need(g', n, (off + c) / BSIZE, Touched(off + c, rest)) + Need(g, n, off / BSIZE, Touched(off, c))
            == Need(g, n, off / BSIZE, Touched(off, c + rest))
  {
    hide BlockOf, Touched, OthersBlocks;
    var a, k, all := off / BSIZE, Touched(off, c), Touched(off, c + rest);
    var b, j := (off + c) / BSIZE, Touched(off + c, rest);
    TouchedSplit(off, c, rest);
    MissingSplit(g, n, a, k, all - k);
    MissingSame(g, g', n, a + k, all - k);
    if b == a + k - 1 {
      assert Missing(g', n, b, j) == Missing(g', n, b + 1, j - 1);
    }
  }

  lemma TouchedFits(off: nat, len: nat)
    requires off + len <= MAXFILE * BSIZE
    ensures off / BSIZE + Touched(off, len) <= MAXFILE
  {
  }

  lemma SizeStep(g: Fs, g1: Fs, n: nat, off: nat, src: seq<Byte>, sz: nat)
    requires FsOk(g1) && NoneTaken(g1) && n < |g1.inodes| && sz <= MAXFILE * BSIZE && Wrote(g, g1, n, off, src)
    requires Filled(g, g1, n, off / BSIZE, Touched(off, |src|))
    ensures var g2 := Sized(g1, n, sz);
            && FsOk(g2) && NoneTaken(g2) && FreeSet(g2) == FreeSet(g1) && Wrote(g, g2, n, off, src)
            && Filled(g, g2, n, off / BSIZE, Touched(off, |src|)) && InodeOk(g2.inodes[n]) && InodeOk(g1.inodes[n])
            && Root(g2, n) == Root(g1, n)
  {
    hide SlotVal, FileByte, Filled, FsOk;
    var g2 := Sized(g1, n, sz);
    SizedOk(g1, n, sz);
    FilledSame(g, g1, g2, n, off / BSIZE, Touched(off, |src|));
    forall m | 0 <= m < |g.inodes| && m != n ensures SameFile(g, g2, m) {
      assert SameFile(g, g1, m);
    }
  }

  lemma CardUnion(a: set<nat>, b: set<nat>, c: set<nat>)
    ensures |a + b + c| <= |a| + |b| + |c|
  {
    CardTwo(a, b);
    CardTwo(a + b, c);
  }

  lemma CardTwo(a: set<nat>, b: set<nat>)
    ensures |a + b| <= |a| + |b|
  {
    assert a + b == a + (b - a) && a !! (b - a);
    assert |a + b| == |a| + |b - a|;
    CardLess(b - a, b);
  }

  lemma {:induction false} CardLess(a: set<nat>, b: set<nat>)
    requires a <= b
    ensures |a| <= |b|
  {
    assert b == a + (b - a) && a !! (b - a);
    assert |b| == |a| + |b - a|;
  }

  // ---- writei's loop ----

  lemma StartWrite(g: Fs, n: nat, off: nat)
    requires FsOk(g) && n < |g.inodes| && InodeOk(g.inodes[n]) && off / BSIZE <= MAXFILE
    ensures Wrote(g, g, n, off, []) && Filled(g, g, n, off / BSIZE, 0)
  {
    hide Wrote, Filled;
    WroteNone(g, n, off);
    FilledNone(g, n, off / BSIZE);
  }

  /** After tot bytes and k blocks, bn is the block of the next byte and `left` blocks are
      to come. */
  ghost predicate Turn(off: nat, len: nat, tot: nat, k: nat, bn: nat, left: nat) {
    && tot <= len && bn == off / BSIZE + k && left == Touched(off, len) - k
    && if tot < len then (off + tot) / BSIZE == bn && left > 0 else left == 0
  }

  lemma TurnFirst(off: nat, len: nat)
    ensures Turn(off, len, 0, 0, off / BSIZE, Touched(off, len))
  {
  }

  lemma TurnNext(off: nat, len: nat, tot: nat, m: nat, k: nat, bn: nat, left: nat)
    requires Turn(off, len, tot, k, bn, left) && 0 < m && tot + m <= len && (off + tot + m - 1) / BSIZE == bn
    requires tot + m < len ==> (off + tot + m) % BSIZE == 0
    ensures left > 0 && Turn(off, len, tot + m, k + 1, bn + 1, left - 1)
  {
  }

  lemma TurnLast(off: nat, len: nat, k: nat, bn: nat, left: nat)
    requires Turn(off, len, len, k, bn, left)
    ensures left == 0 && k == Touched(off, len)
  {
  }

  lemma NeedFirst(g: Fs, n: nat, bn: nat, k: nat)
    requires n < |g.inodes| && InodeOk(g.inodes[n]) && k > 0 && bn + k <= MAXFILE
    ensures BmapCost(g, n, bn) <= Need(g, n, bn, k)
  {
    hide BlockOf;
  }

  lemma NeedNone(g: Fs, n: nat, bn: nat)
    requires n < |g.inodes| && InodeOk(g.inodes[n]) && bn <= MAXFILE
    ensures Need(g, n, bn, 0) == 0
  {
  }

  lemma BmapStep(g: Fs, g1: Fs, g2: Fs, n: nat, off: nat, src: seq<Byte>, a: nat, k: nat, left: nat)
    requires Wrote(g, g1, n, off, src) && Filled(g, g1, n, a, k) && left > 0 && a + k + left <= MAXFILE
    requires Bmapped(g1, g2, n, a + k)
    requires FsOk(g2)
    ensures Wrote(g, g2, n, off, src) && Filled(g, g2, n, a, k + 1) && n < |g2.inodes| == |g1.inodes|
    ensures InodeOk(g2.inodes[n])
    ensures Need(g1, n, a + k, left) == BmapCost(g1, n, a + k) + Need(g2, n, a + k + 1, left - 1)
    ensures g2.inodes[n].size == g1.inodes[n].size && 0 < BlockOf(g2, n, a + k) < |g2.disk|
    ensures RootSet(g1, n) <= RootSet(g2, n)
  {
    hide SlotVal, FileByte, Filled, Need, BmapCost, Wrote, Slots, Bits;
    WroteSame(g, g1, g2, n, off, src);
    FilledBmap(g, g1, g2, n, a, k);
    NeedStep(g1, g2, n, a + k, left);
    SlotBlock(g2, n, a + k);
    assert SameFile(g1, g2, n);
  }

  lemma PatchStep(g: Fs, g2: Fs, n: nat, off: nat, src: seq<Byte>, tot: nat, m: nat, a: nat, k: nat, b: nat,
    blk: Block)
    requires tot + m <= |src| && m > 0 && off + |src| <= MAXFILE * BSIZE && FsOk(g2) && NoneTaken(g2) && n < |g2.inodes|
    requires Wrote(g, g2, n, off, src[..tot]) && Filled(g, g2, n, a, k) && InodeOk(g2.inodes[n])
    requires b == BlockOf(g2, n, (off + tot) / BSIZE) && 0 < b < |g2.disk| && m <= BSIZE - (off + tot) % BSIZE
    requires blk == Patched(g2.disk[b], (off + tot) % BSIZE, src[tot..tot + m])
    ensures var g3 := Fs(g2.sb, g2.disk[b := blk], g2.inodes, g2.owner);
            && g3 == DataWritten(g2, n, (off + tot) / BSIZE, blk)
            && FsOk(g3) && NoneTaken(g3) && FreeSet(g3) == FreeSet(g2)
            && Wrote(g, g3, n, off, src[..tot + m]) && Filled(g, g3, n, a, k)
    ensures (off + tot + m - 1) / BSIZE == (off + tot) / BSIZE
    ensures tot + m < |src| && m == BSIZE - (off + tot) % BSIZE ==> (off + tot + m) % BSIZE == 0
  {
    hide SlotVal, FileByte, Filled, Wrote, Slots, Bits, Patched;
    WroteMore(g, g2, n, off, src, tot, m);
    DataWrittenOk(g2, n, (off + tot) / BSIZE, blk);
    FilledSame(g, g2, DataWritten(g2, n, (off + tot) / BSIZE, blk), n, a, k);
  }

  /** Writing data changes no slot. */
  lemma PatchNeeds(g2: Fs, n: nat, bn: nat, blk: Block, at: nat, k: nat)
    requires FsOk(g2) && n < |g2.inodes| && bn < MAXFILE && InodeOk(g2.inodes[n])
    requires 0 < BlockOf(g2, n, bn) < |g2.disk| && at + k <= MAXFILE
    ensures Need(DataWritten(g2, n, bn, blk), n, at, k) == Need(g2, n, at, k)
    ensures RootSet(DataWritten(g2, n, bn, blk), n) == RootSet(g2, n)
  {
    hide SlotVal, FileByte, Slots, Bits;
    var g3 := DataWritten(g2, n, bn, blk);
    DataWrittenOk(g2, n, bn, blk);
    forall i | at <= i < at + k ensures BlockOf(g3, n, i) == BlockOf(g2, n, i) {
    }
    MissingSame(g2, g3, n, at, k);
  }

  // ---- readi ----

  /** How much readi reads. */
  function ReadLen(size: nat, off: nat, cnt: nat): (len: nat)
    requires off <= size
    ensures len <= cnt && off + len <= size && (len == cnt || off + len == size)
  {
    if off + cnt > size then size - off else cnt
  }

  lemma SelfFiles(g: Fs, n: nat)
    requires FsOk(g) && n < |g.inodes|
    ensures SameFiles(g, g) && InodeOk(g.inodes[n]) && |Content(g, n)| == g.inodes[n].size <= MAXFILE * BSIZE
  {
    hide Bits, FileByte;
  }

  lemma ReadStep(g: Fs, g1: Fs, g2: Fs, n: nat, bn: nat, left: nat)
    requires SameFiles(g, g1) && left > 0 && bn + left <= MAXFILE && Bmapped(g1, g2, n, bn) && FsOk(g2)
    ensures SameFiles(g, g2) && n < |g2.inodes| && InodeOk(g2.inodes[n]) && InodeOk(g1.inodes[n])
    ensures Need(g1, n, bn, left) == BmapCost(g1, n, bn) + Need(g2, n, bn + 1, left - 1)
    ensures 0 < BlockOf(g2, n, bn) < |g2.disk|
  {
    hide SlotVal, FileByte, Need, BmapCost, Slots, Bits;
    FilesTrans(g, g1, g2);
    NeedStep(g1, g2, n, bn, left);
    SlotBlock(g2, n, bn);
  }

  lemma ReadChunk(g: Fs, g2: Fs, n: nat, off: nat, m: nat)
    requires SameFiles(g, g2) && n < |g2.inodes| && n < |g.inodes| && InodeOk(g2.inodes[n]) && InodeOk(g.inodes[n])
    requires m <= BSIZE - off % BSIZE && off + m <= g.inodes[n].size && off < MAXFILE * BSIZE
    requires 0 < BlockOf(g2, n, off / BSIZE) < |g2.disk|
    ensures g2.disk[BlockOf(g2, n, off / BSIZE)][off % BSIZE..off % BSIZE + m] == Content(g, n)[off..off + m]
  {
    hide SlotVal;
    assert SameFile(g, g2, n);
    var blk := g2.disk[BlockOf(g2, n, off / BSIZE)];
    var x, y := blk[off % BSIZE..off % BSIZE + m], Content(g, n)[off..off + m];
    forall i | 0 <= i < |x| ensures x[i] == y[i] {
      assert (off + i) / BSIZE == off / BSIZE && (off + i) % BSIZE == off % BSIZE + i;
      assert FileByte(g2, n, off + i) == blk[off % BSIZE + i];
    }
  }

  lemma ChunkEnd(off: nat, m: nat, left: nat)
    requires 0 < m <= left && m == if left < BSIZE - off % BSIZE then left else BSIZE - off % BSIZE
    ensures (off + m - 1) / BSIZE == off / BSIZE && (m < left ==> (off + m) % BSIZE == 0)
  {
  }

  // ---- itrunc ----

  /** Blocks of inode n are being freed: bitmap blocks change, and nothing of any other
      inode. */
  ghost predicate Truncing(g: Fs, g': Fs, n: nat) {
    && g'.sb == g.sb && |g'.disk| == |g.disk| && |g'.inodes| == |g.inodes| && |g'.owner| == |g.owner|
    && n < |g.inodes|
    && (forall b :: g.sb.dstart <= b < |g.disk| ==> g'.disk[b] == g.disk[b])
    && (forall m :: 0 <= m < |g.inodes| && m != n ==> g'.inodes[m] == g.inodes[m])
    && (forall b :: 0 <= b < |g.owner| ==>
          g'.owner[b] == g.owner[b] || (g.owner[b].Used? && g.owner[b].n == n && g'.owner[b] == Unused))
  }

  lemma TruncingFree(g: Fs, g1: Fs, n: nat, k: nat, b: nat)
    requires Truncing(g, g1, n) && Bits(g1) && b < g1.sb.size && g1.owner[b] == Used(n, k)
    requires BitBlock(g1.sb, b) < |g1.disk|
    ensures Truncing(g, Freed(g1, b), n)
  {
    hide MarkBlock, BitOf;
    BitBlockIn(g1, b);
  }

  /** Inode n has lost slots below k. */
  ghost predicate Emptied(g: Fs, n: nat, k: nat) {
    && n < |g.inodes| && InodeOk(g.inodes[n])
    && forall j :: 0 <= j < k && j <= MAXFILE ==> SlotVal(g.disk, g.inodes[n], j) == 0
  }

  lemma EmptiedMore(g: Fs, g': Fs, n: nat, i: nat, hi: nat)
    requires Emptied(g, n, i) && i <= NDIRECT && hi == (if i == NDIRECT then ROOT + 1 else i + 1) && n < |g'.inodes|
    requires InodeOk(g'.inodes[n])
    requires forall k :: 0 <= k <= MAXFILE ==>
             SlotVal(g'.disk, g'.inodes[n], k) == if i <= k < hi then 0 else SlotVal(g.disk, g.inodes[n], k)
    ensures Emptied(g', n, hi)
  {
    hide SlotVal;
  }

  lemma EmptiedSame(g: Fs, g': Fs, n: nat, k: nat)
    requires Emptied(g, n, k) && SameSlots(g, g')
    ensures Emptied(g', n, k)
  {
    hide SlotVal;
  }

  /** Inode n is empty, its blocks are free, and other files are as they were. */
  ghost predicate Truncated(g: Fs, g': Fs, n: nat) {
    && |g'.inodes| == |g.inodes| && n < |g.inodes| && InodeOk(g'.inodes[n]) && g'.inodes[n].size == 0
    && (forall m :: 0 <= m < |g.inodes| && m != n ==> SameFile(g, g', m))
    && (forall k :: 0 <= k <= MAXFILE ==> SlotVal(g'.disk, g'.inodes[n], k) == 0)
    && OthersBlocks(g, g', n) && |g'.owner| == |g.owner|
    && forall b :: 0 <= b < |g.owner| ==>
       g'.owner[b] == if g.owner[b].Used? && g.owner[b].n == n then Unused else g.owner[b]
  }

  lemma TruncDone(g: Fs, g1: Fs, n: nat)
    requires FsOk(g) && FsOk(g1) && Truncing(g, g1, n) && Emptied(g1, n, ROOT + 1) && NoneTaken(g)
    ensures FsOk(Sized(g1, n, 0)) && Truncated(g, Sized(g1, n, 0), n) && NoneTaken(Sized(g1, n, 0))
  {
    hide BitOf, Word, OthersBlocks;
    var g2 := Sized(g1, n, 0);
    SizedOk(g1, n, 0);
    TruncOthers(g, g1, n);
    forall b | 0 <= b < |g.owner|
      ensures g2.owner[b] == if g.owner[b].Used? && g.owner[b].n == n then Unused else g.owner[b] {
      assert OwnerOk(g1, b);
    }
    forall m | 0 <= m < |g.inodes| && m != n ensures SameFile(g, g2, m) {
      TruncOther(g, g1, n, m);
    }
  }

  lemma TruncOthers(g: Fs, g1: Fs, n: nat)
    requires FsOk(g) && FsOk(g1) && Truncing(g, g1, n)
    ensures OthersBlocks(g, Sized(g1, n, 0), n)
  {
    hide Slots, Bits, SlotVal, FileByte;
    var g2 := Sized(g1, n, 0);
    forall m | 0 <= m < |g.inodes| && m != n ensures InodeOk(g.inodes[m]) && InodeOk(g2.inodes[m]) {
      InodesOk(g, m);
    }
    forall m, i | 0 <= m < |g.inodes| && m != n && 0 <= i < MAXFILE ensures BlockOf(g2, m, i) == BlockOf(g, m, i) {
      TruncOther(g, g1, n, m);
    }
  }

  lemma TruncOther(g: Fs, g1: Fs, n: nat, m: nat)
    requires FsOk(g) && FsOk(g1) && Truncing(g, g1, n) && m < |g.inodes| && m != n
    ensures SameFile(g, Sized(g1, n, 0), m)
    ensures forall i :: 0 <= i < MAXFILE ==> BlockOf(Sized(g1, n, 0), m, i) == BlockOf(g, m, i)
  {
    hide BitOf, Word, Slots;
    var g2 := Sized(g1, n, 0);
    InodesOk(g, m);
    forall k | 0 <= k <= MAXFILE ensures SlotVal(g2.disk, g2.inodes[m], k) == SlotVal(g.disk, g.inodes[m], k) {
      if g.inodes[m].addrs[NDIRECT] != 0 {
        RootSlot(g, m);
      }
    }
    forall o | 0 <= o < MAXFILE * BSIZE ensures FileByte(g2, m, o) == FileByte(g, m, o) {
      if BlockOf(g, m, o / BSIZE) != 0 {
        SlotBlock(g, m, o / BSIZE);
      }
    }
  }

  lemma TruncStart(g: Fs, n: nat)
    requires FsOk(g) && n < |g.inodes|
    ensures Truncing(g, g, n) && Emptied(g, n, 0)
  {
    hide Bits;
  }

  lemma AddrSlot(g: Fs, n: nat, i: nat)
    requires n < |g.inodes| && InodeOk(g.inodes[n]) && i <= NDIRECT
    ensures g.inodes[n].addrs[i] == SlotVal(g.disk, g.inodes[n], if i == NDIRECT then ROOT else i)
  {
  }

  lemma EmptiedHere(g: Fs, n: nat, i: nat)
    requires Emptied(g, n, i) && i < NDIRECT && SlotVal(g.disk, g.inodes[n], i) == 0
    ensures Emptied(g, n, i + 1)
  {
    hide SlotVal;
  }

  lemma NoRootEmptied(g: Fs, n: nat)
    requires Emptied(g, n, NDIRECT) && Root(g, n) == 0
    ensures Emptied(g, n, ROOT + 1)
  {
  }

  lemma SelfSlots(g: Fs)
    requires Slots(g)
    ensures SameSlots(g, g)
  {
    hide SlotVal;
  }

  lemma SlotsTrans(g0: Fs, g1: Fs, g2: Fs)
    requires SameSlots(g0, g1) && SameSlots(g1, g2)
    ensures SameSlots(g0, g2)
  {
    hide SlotVal;
  }

  lemma SlotIsWord(g0: Fs, g1: Fs, n: nat, j: nat)
    requires SameSlots(g0, g1) && n < |g0.inodes| && j < NINDIRECT && 0 < g0.inodes[n].addrs[NDIRECT] < |g0.disk|
    requires InodeOk(g0.inodes[n])
    requires InodeOk(g1.inodes[n])
    ensures SlotVal(g1.disk, g1.inodes[n], NDIRECT + j) == Word(g0.disk[g0.inodes[n].addrs[NDIRECT]], j)
  {
    hide Word;
  }

  /** With its blocks free, addrs[i] can go to 0. */
  lemma ClearStep(g: Fs, g1: Fs, n: nat, i: nat, hi: nat)
    requires Bits(g1) && SlotsBut(g1, n, i, hi) && n < |g1.inodes| && i <= NDIRECT
    requires hi == (if i == NDIRECT then ROOT + 1 else i + 1)
    requires Truncing(g, g1, n) && Emptied(g1, n, i)
    ensures InodeOk(g1.inodes[n])
    ensures var g2 := Fs(g1.sb, g1.disk, g1.inodes[n := Inode(g1.inodes[n].size, g1.inodes[n].addrs[i := 0])],
            g1.owner);
            FsOk(g2) && Truncing(g, g2, n) && Emptied(g2, n, hi)
  {
    hide SlotVal, Bits, Slots, Emptied;
    var g2 := AddrCleared(g1, n, i);
    AddrClearedOk(g1, n, i, hi);
    InodesOk(g2, n);
    EmptiedMore(g1, g2, n, i, hi);
  }

  // ---- filewrite ----

  lemma WroteJoin(g: Fs, g1: Fs, g2: Fs, n: nat, off: nat, src: seq<Byte>, i: nat, c: nat)
    requires i + c <= |src| && Wrote(g, g1, n, off, src[..i]) && Wrote(g1, g2, n, off + i, src[i..i + c])
    ensures Wrote(g, g2, n, off, src[..i + c])
  {
    hide FileByte;
    forall m | 0 <= m < |g.inodes| && m != n ensures SameFile(g, g2, m) {
      assert SameFile(g, g1, m) && SameFile(g1, g2, m);
    }
  }

  lemma AcceptedStep(size: nat, off: nat, len: nat)
    requires len > 0
    ensures var c := if len > CHUNK then CHUNK else len;
            Accepted(size, off, len) == if Fits(size, off, c) then c + Accepted(Max(size, off + c), off + c, len - c)
              else 0
  {
  }

  /** The blocks the first chunk needs, out of those the whole write needs. */
  lemma {:induction false} ChunkOfNeed(g: Fs, n: nat, off: nat, c: nat, all: nat)
    requires n < |g.inodes| && InodeOk(g.inodes[n]) && 0 < c <= all && off + all <= MAXFILE * BSIZE
    ensures off / BSIZE + Touched(off, c) <= MAXFILE && off / BSIZE + Touched(off, all) <= MAXFILE
    ensures Need(g, n, off / BSIZE, Touched(off, c)) <= Need(g, n, off / BSIZE, Touched(off, all))
  {
    hide BlockOf;
    TouchedFits(off, c);
    TouchedFits(off, all);
    MissingSplit(g, n, off / BSIZE, Touched(off, c), Touched(off, all) - Touched(off, c));
  }

  lemma FilledChunk(g: Fs, g': Fs, n: nat, off: nat, len: nat)
    requires Filled(g, g', n, off / BSIZE, Touched(off, len)) && NoHoles(g, n) && Fits(g.inodes[n].size, off, len)
    requires g'.inodes[n].size == Max(g.inodes[n].size, off + len)
    ensures InodeOk(g'.inodes[n]) && NoHoles(g', n)
  {
    hide Filled, NoHoles, Touched;
    FilledShape(g, g', n, off / BSIZE, Touched(off, len));
    FilledHoles(g, g', n, off, len);
  }

  lemma FilledShape(g: Fs, g': Fs, n: nat, bn: nat, k: nat)
    requires Filled(g, g', n, bn, k)
    ensures n < |g'.inodes| && InodeOk(g'.inodes[n]) && InodeOk(g.inodes[n])
  {
    hide BlockOf;
  }

  lemma StartFileWrite(g: Fs, n: nat, off: nat)
    requires FsOk(g) && n < |g.inodes|
    ensures Wrote(g, g, n, off, [])
  {
    hide Wrote;
    WroteNone(g, n, off);
  }

  lemma AcceptedNone(size: nat, off: nat)
    ensures Accepted(size, off, 0) == 0
  {
  }

  /** The disk has room for all bytes from off on. */
  ghost predicate WriteReady(g: Fs, n: nat, off: nat, all: nat)
    requires n < |g.inodes| && InodeOk(g.inodes[n])
  {
    all > 0 ==>
      off / BSIZE + Touched(off, all) <= MAXFILE && |FreeSet(g)| >= Need(g, n, off / BSIZE, Touched(off, all))
  }

  lemma ChunkReady(g: Fs, n: nat, off: nat, c: nat, all: nat)
    requires n < |g.inodes| && InodeOk(g.inodes[n]) && 0 < c && WriteReady(g, n, off, all)
    requires (Fits(g.inodes[n].size, off, c) ==> c <= all && Fits(g.inodes[n].size, off, all))
    ensures Fits(g.inodes[n].size, off, c) ==>
              && off / BSIZE + Touched(off, c) <= MAXFILE && |FreeSet(g)| >= Need(g, n, off / BSIZE, Touched(off, c))
              && off / BSIZE + Touched(off, all) <= MAXFILE
              && |FreeSet(g)| >= Need(g, n, off / BSIZE, Touched(off, all))
  {
    hide FreeSet, Need, Touched;
    if Fits(g.inodes[n].size, off, c) {
      ChunkOfNeed(g, n, off, c, all);
    }
  }

  lemma RestReady(g: Fs, g': Fs, n: nat, off: nat, c: nat, rest: nat)
    requires 0 < c && off + c + rest <= MAXFILE * BSIZE && off / BSIZE + Touched(off, c) <= MAXFILE
    requires n < |g.inodes| && InodeOk(g.inodes[n]) && Filled(g, g', n, off / BSIZE, Touched(off, c))
    requires off / BSIZE + Touched(off, c + rest) <= MAXFILE
    requires |FreeSet(g)| >= Need(g, n, off / BSIZE, Touched(off, c + rest))
    requires |FreeSet(g')| == |FreeSet(g)| - Need(g, n, off / BSIZE, Touched(off, c))
    ensures n < |g'.inodes| && InodeOk(g'.inodes[n]) && WriteReady(g', n, off + c, rest)
  {
    hide FreeSet, Need, Touched, BlockOf, OthersBlocks;
    if rest > 0 {
      NeedAfter(g, g', n, off, c, rest);
    }
  }
}
