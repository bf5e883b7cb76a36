/** The block allocator, the inode block map, reads and writes of files, and truncation
    (kernel/fs.c, kernel/file.c:148-175), over the disk as the buffer cache shows it.
    `logged` collects the blocks given to log_write since begin_op. Panics for exhausted
    resources are preconditions. */
module FileSystems {
  import opened Common
  import opened Blocks
  import opened FsSpec
  import opened FsChanges
  import opened FsFiles
  import opened FsWrites

  class FileSystem {
    const sb: Super
    var disk: DiskImage
    var inodes: seq<Inode>
    var dinodes: seq<Inode>
    ghost var owner: seq<Owner>
    ghost var logged: set<nat>

    ghost function G(): Fs
      reads this
    {
      Fs(sb, disk, inodes, owner)
    }

    /** Every allocated block is in a slot. */
    ghost predicate Valid()
      reads this
    {
      FsOk(G()) && NoneTaken(G()) && |dinodes| == |inodes|
    }

    constructor (sb0: Super, disk0: DiskImage, inodes0: seq<Inode>, ghost owner0: seq<Owner>)
      requires FsOk(Fs(sb0, disk0, inodes0, owner0)) && NoneTaken(Fs(sb0, disk0, inodes0, owner0))
      ensures Valid() && G() == Fs(sb0, disk0, inodes0, owner0) && dinodes == inodes0 && logged == {}
    {
      sb, disk, inodes, dinodes := sb0, disk0, inodes0, inodes0;
      owner, logged := owner0, {};
    }

    /** The file system mkfs makes, before it copies any file in. */
    constructor Format(sb0: Super)
      requires SuperOk(sb0, ZeroDisk(sb0.size))
      ensures Valid() && dinodes == inodes && logged == {}
      ensures G() == Fs(sb0, Marked(sb0, ZeroDisk(sb0.size), sb0.dstart), EmptyInodes(sb0.ninodes), FirstOwners(sb0))
    {
      hide SuperOk, FsOk, NoneTaken, Marked;
      FormatOk(sb0);
      sb, disk, inodes, dinodes :=
        sb0, Marked(sb0, ZeroDisk(sb0.size), sb0.dstart), EmptyInodes(sb0.ninodes), EmptyInodes(sb0.ninodes);
      owner, logged := FirstOwners(sb0), {};
    }

    /** log_write(bp) after a change to the buffer of block b. */
    method LogWrite(b: nat, blk: Block)
      requires b < |disk|
      modifies this`disk, this`logged
      ensures disk == old(disk)[b := blk] && logged == old(logged) + {b}
    {
      disk := disk[b := blk];
      logged := logged + {b};
    }

    /** balloc: takes the first free block and zeroes it. */
    method Balloc() returns (r: nat)
      requires FsOk(G()) && FreeSet(G()) != {}
      modifies this`disk, this`logged, this`owner
      ensures r < |old(owner)| && old(owner)[r] == Unused && sb.dstart <= r < sb.size < UINT32
      ensures BitBlock(sb, r) < |old(disk)| && r < |old(disk)|
      ensures forall c :: 0 <= c < r ==> old(owner)[c] != Unused
      ensures FsOk(G()) && G() == Alloced(old(G()), r) && SameSlots(old(G()), G()) && SameFiles(old(G()), G())
      ensures logged == old(logged) + {BitBlock(sb, r), r}
    {
      hide Slots, Bits, SameSlots, SameFiles, Bit, FreeSet, BitBlock, Zeros, MarkBlock;
      SomeFree(G());
      r := 0;
      var b := 0;
      while b < sb.size
        invariant 0 <= b && b % BPB == 0
        invariant G() == old(G()) && logged == old(logged)
        invariant forall c :: 0 <= c < b && c < sb.size ==> owner[c] != Unused
      {
        BitIs(G(), b, 0);
        var bp := disk[BitBlock(sb, b)];
        var bi := 0;
        while bi < BPB && b + bi < sb.size
          invariant 0 <= bi <= BPB
          invariant G() == old(G()) && logged == old(logged) && b < sb.size
          invariant forall c :: 0 <= c < b + bi && c < sb.size ==> owner[c] != Unused
        {
          BitIs(G(), b, bi);
          if !Bit(bp[bi / 8], bi % 8) {
            AllocedOk(G(), b + bi);
            LogWrite(BitBlock(sb, b), MarkBlock(bp, bi, true));
            LogWrite(b + bi, Zeros());
            owner := owner[b + bi := Taken];
            return b + bi;
          }
          bi := bi + 1;
        }
        b := b + BPB;
      }
      assert false;
    }

    /** bfree: the block of slot k of inode n, whose lower slots from lo on are freed. */
    method Bfree(b: nat, ghost n: nat, ghost lo: nat, ghost k: nat)
      requires Bits(G()) && SlotsBut(G(), n, lo, k) && n < |inodes| && lo <= k <= MAXFILE
      requires b == SlotVal(disk, inodes[n], k) && b != 0
      modifies this`disk, this`logged, this`owner
      ensures b < |old(owner)| && b < sb.size && old(owner)[b] == Used(n, k) && BitBlock(sb, b) < |old(disk)|
      ensures G() == Freed(old(G()), b)
      ensures Bits(G()) && SlotsBut(G(), n, lo, k + 1) && SameSlots(old(G()), G())
      ensures logged == old(logged) + {BitBlock(sb, b)}
    {
      hide Bits, SlotsBut, SameSlots, SlotVal, Bit;
      FreedSlot(G(), n, lo, k);
      var bp := disk[BitBlock(sb, b)];
      var bi := b % BPB;
      assert Bit(bp[bi / 8], bi % 8);
      LogWrite(BitBlock(sb, b), MarkBlock(bp, bi, false));
      owner := owner[b := Unused];
    }

    /** bmap: the disk block of file block bn of inode n, made if it is missing. `maps` are
        the bitmap blocks logged for it. */
    method Bmap(n: nat, bn: nat) returns (addr: nat, ghost maps: set<nat>)
      requires Valid() && n < |inodes| && bn < MAXFILE && |FreeSet(G())| >= BmapCost(G(), n, bn)
      modifies this`disk, this`logged, this`owner, this`inodes
      ensures Valid() && Bmapped(old(G()), G(), n, bn) && addr == BlockOf(G(), n, bn)
      ensures |FreeSet(G())| == |FreeSet(old(G()))| - BmapCost(old(G()), n, bn)
      ensures |maps| <= BmapCost(old(G()), n, bn) && logged <= old(logged) + maps + {addr} + RootSet(G(), n)
      ensures BlockOf(old(G()), n, bn) != 0 ==> G() == old(G()) && logged == old(logged)
    {
      hide Slots, Bits, Bmapped, Grew, FreeSet, NoneTaken, SameSlots, SameFiles, SlotVal;
      ghost var g := G();
      InodesOk(g, n);
      maps := {};
      if bn < NDIRECT {
        DirectIs(g, n, bn);
        addr := inodes[n].addrs[bn];
        if addr == 0 {
          addr := FillAddr(n, bn);
          GrewBmapped(g, G(), n, bn, addr);
          GrewFacts(g, G(), n, bn, addr);
          maps := {BitBlock(sb, addr)};
        } else {
          SelfBmapped(g, n, bn);
        }
        return;
      }
      addr := inodes[n].addrs[NDIRECT];
      if addr == 0 {
        NoRootNoBlock(g, n, bn);
        addr := FillAddr(n, NDIRECT);
        GrewFacts(g, G(), n, ROOT, addr);
        maps := {BitBlock(sb, addr)};
      }
      ghost var g1, r := G(), addr;
      ghost var more;
      addr, more := BmapIndirect(n, bn - NDIRECT, addr);
      if g.inodes[n].addrs[NDIRECT] == 0 {
        RootThen(g, g1, G(), n, bn, r);
      }
      maps := maps + more;
    }

    /** ip->addrs[i] = balloc(ip->dev). */
    method FillAddr(n: nat, i: nat) returns (b: nat)
      requires Valid() && n < |inodes| && i <= NDIRECT && InodeOk(inodes[n]) && inodes[n].addrs[i] == 0
      requires |FreeSet(G())| >= 1
      modifies this`disk, this`logged, this`owner, this`inodes
      ensures Valid() && Grew(old(G()), G(), n, if i == NDIRECT then ROOT else i, b)
      ensures inodes == old(inodes)[n := Inode(old(inodes)[n].size, old(inodes)[n].addrs[i := b])]
      ensures logged == old(logged) + {BitBlock(sb, b), b}
    {
      hide Slots, Bits, Grew, SameSlots, SameFiles, SlotVal, FreeSet, NoneTaken;
      ghost var g := G();
      FreeOne(g);
      b := Balloc();
      GrewAddr(g, n, i, b);
      inodes := inodes[n := Inode(inodes[n].size, inodes[n].addrs[i := b])];
      owner := owner[b := Used(n, if i == NDIRECT then ROOT else i)];
      GrewValid(g, G(), n, if i == NDIRECT then ROOT else i, b);
    }

    /** The part of bmap that looks in the indirect block. */
    method BmapIndirect(n: nat, j: nat, root: nat) returns (addr: nat, ghost maps: set<nat>)
      requires Valid() && n < |inodes| && j < NINDIRECT && InodeOk(inodes[n]) && root == inodes[n].addrs[NDIRECT]
      requires root != 0
      requires BlockOf(G(), n, NDIRECT + j) == 0 ==> |FreeSet(G())| >= 1
      modifies this`disk, this`logged, this`owner
      ensures Valid() && Bmapped(old(G()), G(), n, NDIRECT + j) && addr == BlockOf(G(), n, NDIRECT + j)
      ensures |FreeSet(G())| == |FreeSet(old(G()))| - |maps|
      ensures |maps| == if BlockOf(old(G()), n, NDIRECT + j) == 0 then 1 else 0
      ensures logged <= old(logged) + maps + {addr, root}
      ensures BlockOf(old(G()), n, NDIRECT + j) != 0 ==> G() == old(G()) && logged == old(logged)
    {
      hide Slots, Bits, Bmapped, Grew, SameSlots, SameFiles, SlotVal, FreeSet, NoneTaken, Word, SetWord;
      ghost var g := G();
      RootSlot(g, n);
      IndirectIs(g, n, j);
      var bp := disk[root];
      addr := Word(bp, j);
      maps := {};
      if addr == 0 {
        FreeOne(g);
        addr := Balloc();
        GrewWord(g, n, j, addr);
        LogWrite(root, SetWord(bp, j, addr));
        owner := owner[addr := Used(n, NDIRECT + j)];
        GrewValid(g, G(), n, NDIRECT + j, addr);
        GrewBmapped(g, G(), n, NDIRECT + j, addr);
        GrewFacts(g, G(), n, NDIRECT + j, addr);
        maps := {BitBlock(sb, addr)};
      } else {
        SelfBmapped(g, n, NDIRECT + j);
      }
    }

    /** iupdate: the inode goes to its block on disk. */
    method Iupdate(n: nat)
      requires n < |inodes| && |dinodes| == |inodes|
      modifies this`dinodes, this`logged
      ensures dinodes == old(dinodes)[n := inodes[n]] && logged == old(logged) + {n / IPB + sb.inodestart}
    {
      dinodes := dinodes[n := inodes[n]];
      logged := logged + {n / IPB + sb.inodestart};
    }

    /** writei: src goes into file n at off, and the inode to disk; or -1 and nothing.
        `extra` are the blocks logged. */
    method Writei(n: nat, off: Uint, src: seq<Byte>) returns (r: int, ghost extra: set<nat>)
      requires Valid() && n < |inodes| && InodeOk(inodes[n]) && |src| < UINT32
      requires Fits(inodes[n].size, off, |src|) ==>
                 off / BSIZE + Touched(off, |src|) <= MAXFILE
                   && |FreeSet(G())| >= Need(G(), n, off / BSIZE, Touched(off, |src|))
      modifies this
      ensures Valid() && (r == -1 <==> off > old(inodes)[n].size || off + |src| > MAXFILE * BSIZE)
      ensures AllWhole(old(G())) ==> AllWhole(G())
      ensures r == -1 ==> G() == old(G()) && dinodes == old(dinodes) && logged == old(logged)
      ensures r != -1 ==>
                && r == |src| && Wrote(old(G()), G(), n, off, src)
                && inodes[n].size == Max(old(inodes)[n].size, off + |src|)
                && dinodes == old(dinodes)[n := inodes[n]]
                && Filled(old(G()), G(), n, off / BSIZE, Touched(off, |src|))
                && |FreeSet(G())| == |FreeSet(old(G()))| - Need(old(G()), n, off / BSIZE, Touched(off, |src|))
                && logged <= old(logged) + extra
                && |extra| <= Touched(off, |src|) + Need(old(G()), n, off / BSIZE, Touched(off, |src|)) + 2
    {
      hide FsOk, NoneTaken, FreeSet, Wrote, Filled, Need, SameFiles, SameSlots, AllWhole;
      extra := {};
      var size: nat := inodes[n].size;
      if off > size || (off + |src|) % UINT32 < off {
        return -1, {};
      }
      if (off + |src|) % UINT32 > MAXFILE * BSIZE {
        return -1, {};
      }
      ghost var g := G();
      ghost var data: set<nat>, maps: set<nat>;
      data, maps := WriteBlocks(n, off, src);
      ghost var g1 := G();
      var end: nat := off + |src|;
      SizeStep(g, g1, n, off, src, Max(size, end));
      if end > size {
        inodes := inodes[n := Inode(end, inodes[n].addrs)];
      }
      assert G() == Sized(g1, n, Max(size, end));
      if AllWhole(g) {
        WroteWhole(g, G(), n, off, src);
      }
      Iupdate(n);
      ghost var last := RootSet(G(), n) + {n / IPB + sb.inodestart};
      extra := data + maps + last;
      CardUnion(data, maps, last);
      r := |src|;
    }

    /** writei's loop: one block per turn. `data` and `maps` are the data and bitmap blocks
        logged. */
    method WriteBlocks(n: nat, off0: nat, src: seq<Byte>) returns (ghost data: set<nat>, ghost maps: set<nat>)
      requires Valid() && n < |inodes| && InodeOk(inodes[n]) && off0 + |src| <= MAXFILE * BSIZE
      requires off0 / BSIZE + Touched(off0, |src|) <= MAXFILE
      requires |FreeSet(G())| >= Need(G(), n, off0 / BSIZE, Touched(off0, |src|))
      modifies this`disk, this`inodes, this`owner, this`logged
      ensures Valid() && Wrote(old(G()), G(), n, off0, src)
      ensures Filled(old(G()), G(), n, off0 / BSIZE, Touched(off0, |src|))
      ensures |inodes| == |old(inodes)| && InodeOk(inodes[n]) && inodes[n].size == old(inodes)[n].size
      ensures |FreeSet(G())| == |FreeSet(old(G()))| - Need(old(G()), n, off0 / BSIZE, Touched(off0, |src|))
      ensures |data| <= Touched(off0, |src|) && |maps| <= Need(old(G()), n, off0 / BSIZE, Touched(off0, |src|))
      ensures logged <= old(logged) + data + maps + RootSet(G(), n)
    {
      hide FsOk, NoneTaken, FreeSet, Wrote, Filled, Need, BmapCost, Bmapped, SameFiles, SameSlots, BlockOf, Patched,
        DataWritten, Root,
        Touched, Turn;
      ghost var g, a, all := G(), off0 / BSIZE, Touched(off0, |src|);
      var tot, off := 0, off0;
      ghost var k: nat, bn: nat, left: nat, spent: nat := 0, a, all, 0;
      data, maps := {}, {};
      StartWrite(g, n, off0);
      assert src[..0] == [];
      TurnFirst(off0, |src|);
      while tot < |src|
        invariant 0 <= tot <= |src| && off == off0 + tot && Turn(off0, |src|, tot, k, bn, left) && bn + left <= MAXFILE
        invariant Valid() && |inodes| == |g.inodes| && InodeOk(inodes[n]) && inodes[n].size == g.inodes[n].size
        invariant Wrote(g, G(), n, off0, src[..tot]) && Filled(g, G(), n, a, k)
        invariant |FreeSet(G())| == |FreeSet(g)| - spent && spent + Need(G(), n, bn, left) == Need(g, n, a, all)
        invariant |data| <= k && |maps| <= spent
        invariant logged <= old(logged) + data + maps + RootSet(G(), n)
      {
        ghost var need := Need(G(), n, bn, left);
        var m;
        ghost var addr, more;
        m, addr, more := WriteOne(n, off0, src, tot, g, k, bn, left);
        CardTwo(maps, more);
        CardTwo(data, {addr});
        spent := spent + (need - Need(G(), n, bn + 1, left - 1));
        maps, data := maps + more, data + {addr};
        k, bn, left := k + 1, bn + 1, left - 1;
        tot, off := tot + m, off + m;
      }
      assert src[..tot] == src;
      TurnLast(off0, |src|, k, bn, left);
      NeedNone(G(), n, bn);
    }

    /** One turn of writei's loop: the bytes from tot on that fall into one block. */
    method WriteOne(n: nat, off0: nat, src: seq<Byte>, tot: nat, ghost g: Fs, ghost k: nat, ghost bn: nat,
      ghost left: nat)
      returns (m: nat, ghost at: nat, ghost maps: set<nat>)
      requires Valid() && n < |inodes| && InodeOk(inodes[n]) && off0 + |src| <= MAXFILE * BSIZE && tot < |src|
      requires Turn(off0, |src|, tot, k, bn, left) && off0 / BSIZE + Touched(off0, |src|) <= MAXFILE
      requires Wrote(g, G(), n, off0, src[..tot]) && Filled(g, G(), n, off0 / BSIZE, k)
      requires |FreeSet(G())| >= Need(G(), n, bn, left)
      modifies this`disk, this`inodes, this`owner, this`logged
      ensures Valid() && |inodes| == |old(inodes)| && InodeOk(inodes[n]) && inodes[n].size == old(inodes)[n].size
      ensures 0 < m && tot + m <= |src| && left > 0 && Turn(off0, |src|, tot + m, k + 1, bn + 1, left - 1)
      ensures Wrote(g, G(), n, off0, src[..tot + m]) && Filled(g, G(), n, off0 / BSIZE, k + 1)
      ensures var spent := |FreeSet(old(G()))| - |FreeSet(G())|;
              && spent >= 0 && spent + Need(G(), n, bn + 1, left - 1) == Need(old(G()), n, bn, left)
              && |maps| <= spent
      ensures logged <= old(logged) + maps + {at} + RootSet(G(), n) && RootSet(old(G()), n) <= RootSet(G(), n)
    {
      hide FsOk, NoneTaken, FreeSet, Wrote, Filled, Need, BmapCost, Bmapped, SameFiles, SameSlots, BlockOf, Patched,
        DataWritten, Root;
      ghost var g1, a := G(), off0 / BSIZE;
      NeedFirst(g1, n, bn, left);
      var off := off0 + tot;
      var addr;
      addr, maps := Bmap(n, off / BSIZE);
      at := addr;
      ghost var g2 := G();
      BmapStep(g, g1, g2, n, off0, src[..tot], a, k, left);
      m := if |src| - tot < BSIZE - off % BSIZE then |src| - tot else BSIZE - off % BSIZE;
      PatchStep(g, g2, n, off0, src, tot, m, a, k + 1, addr, Patched(g2.disk[addr], off % BSIZE, src[tot..tot + m]));
      PatchNeeds(g2, n, bn, Patched(g2.disk[addr], off % BSIZE, src[tot..tot + m]), bn + 1, left - 1);
      LogWrite(addr, Patched(disk[addr], off % BSIZE, src[tot..tot + m]));
      TurnNext(off0, |src|, tot, m, k, bn, left);
    }

    /** readi: up to cnt bytes of file n from off. */
    method Readi(n: nat, off: Uint, cnt: Uint) returns (d: seq<Byte>)
      requires Valid() && n < |inodes| && InodeOk(inodes[n])
      requires off <= inodes[n].size && off + cnt < UINT32 ==>
                 var len := ReadLen(inodes[n].size, off, cnt);
                 off / BSIZE + Touched(off, len) <= MAXFILE
                   && |FreeSet(G())| >= Need(G(), n, off / BSIZE, Touched(off, len))
      modifies this`disk, this`inodes, this`owner, this`logged
      ensures Valid() && SameFiles(old(G()), G()) && (AllWhole(old(G())) ==> AllWhole(G()))
      ensures NoHoles(old(G()), n) ==> G() == old(G()) && logged == old(logged)
      ensures off > old(inodes)[n].size || off + cnt >= UINT32 ==> d == []
      ensures off <= old(inodes)[n].size && off + cnt < UINT32 ==>
                && |d| <= cnt && off + |d| <= old(inodes)[n].size == |Content(old(G()), n)|
                && (|d| == cnt || off + |d| == old(inodes)[n].size)
                && d == Content(old(G()), n)[off..off + |d|]
    {
      hide FsOk, NoneTaken, FreeSet, Need, SameFiles, Touched, Content, NoHoles, AllWhole;
      SelfFiles(G(), n);
      var size: nat := inodes[n].size;
      if off > size || (off + cnt) % UINT32 < off {
        return [];
      }
      var len: nat := cnt;
      if (off + cnt) % UINT32 > size {
        len := size - off;
      }
      d := ReadBlocks(n, off, len);
    }

    /** readi's loop: one block per turn. */
    method ReadBlocks(n: nat, off0: nat, cnt: nat) returns (d: seq<Byte>)
      requires Valid() && n < |inodes| && InodeOk(inodes[n]) && off0 + cnt <= inodes[n].size
      requires off0 / BSIZE + Touched(off0, cnt) <= MAXFILE
      requires |FreeSet(G())| >= Need(G(), n, off0 / BSIZE, Touched(off0, cnt))
      modifies this`disk, this`inodes, this`owner, this`logged
      ensures Valid() && SameFiles(old(G()), G()) && d == Content(old(G()), n)[off0..off0 + cnt]
      ensures AllWhole(old(G())) ==> AllWhole(G())
      ensures NoHoles(old(G()), n) ==> G() == old(G()) && logged == old(logged)
    {
      hide FsOk, NoneTaken, FreeSet, Need, BmapCost, Bmapped, SameFiles, BlockOf, Touched, Content, Root, NoHoles,
        AllWhole;
      ghost var g, bn: nat, left: nat, k: nat := G(), off0 / BSIZE, Touched(off0, cnt), 0;
      SelfFiles(g, n);
      d := [];
      var tot, off: nat := 0, off0;
      TurnFirst(off0, cnt);
      while tot < cnt
        invariant 0 <= tot <= cnt && off == off0 + tot && Turn(off0, cnt, tot, k, bn, left) && bn + left <= MAXFILE
        invariant Valid() && |inodes| == |g.inodes| && InodeOk(inodes[n]) && SameFiles(g, G())
        invariant |FreeSet(G())| >= Need(G(), n, bn, left)
        invariant d == Content(g, n)[off0..off0 + tot]
        invariant AllWhole(g) ==> AllWhole(G())
        invariant NoHoles(g, n) ==> G() == g && logged == old(logged)
      {
        var m, chunk := ReadOne(n, off, cnt - tot, g, bn, left);
        d := d + chunk;
        TurnNext(off0, cnt, tot, m, k, bn, left);
        k, bn, left := k + 1, bn + 1, left - 1;
        tot, off := tot + m, off + m;
      }
    }

    /** One turn of readi's loop: the bytes from off on that lie in one block. */
    method ReadOne(n: nat, off: nat, rest: nat, ghost g: Fs, ghost bn: nat, ghost left: nat)
      returns (m: nat, chunk: seq<Byte>)
      requires Valid() && n < |inodes| == |g.inodes| && InodeOk(inodes[n]) && InodeOk(g.inodes[n]) && SameFiles(g, G())
      requires off / BSIZE == bn && rest > 0 && off + rest <= g.inodes[n].size <= MAXFILE * BSIZE
      requires left > 0 && bn + left <= MAXFILE && |FreeSet(G())| >= Need(G(), n, bn, left)
      modifies this`disk, this`inodes, this`owner, this`logged
      ensures Valid() && |inodes| == |g.inodes| && InodeOk(inodes[n]) && SameFiles(g, G())
      ensures 0 < m <= rest && (off + m - 1) / BSIZE == bn && (m < rest ==> (off + m) % BSIZE == 0)
      ensures chunk == Content(g, n)[off..off + m] && |FreeSet(G())| >= Need(G(), n, bn + 1, left - 1)
      ensures AllWhole(old(G())) ==> AllWhole(G())
      ensures NoHoles(g, n) && old(G()) == g ==> G() == g && logged == old(logged)
    {
      hide FsOk, NoneTaken, FreeSet, Need, BmapCost, Bmapped, SameFiles, BlockOf, Touched, Content, Root, NoHoles,
        AllWhole;
      ghost var g1 := G();
      if NoHoles(g, n) {
        WholeAt(g, n, off);
      }
      NeedFirst(g1, n, bn, left);
      var addr;
      ghost var more;
      addr, more := Bmap(n, off / BSIZE);
      ReadStep(g, g1, G(), n, bn, left);
      if AllWhole(g1) {
        BmappedWhole(g1, G(), n, bn);
      }
      m := if rest < BSIZE - off % BSIZE then rest else BSIZE - off % BSIZE;
      ReadChunk(g, G(), n, off, m);
      chunk := disk[addr][off % BSIZE..off % BSIZE + m];
      ChunkEnd(off, m, rest);
    }

    /** itrunc: frees every block of inode n. */
    method Itrunc(n: nat)
      requires Valid() && n < |inodes|
      modifies this
      ensures Valid() && Truncated(old(G()), G(), n) && dinodes == old(dinodes)[n := inodes[n]]
      ensures AllWhole(old(G())) ==> AllWhole(G())
    {
      hide AllWhole, Bits, Slots, SlotsBut, NoneTaken, Truncing, Emptied, Truncated, SlotVal, SameSlots, Freed,
        BitBlock;
      ghost var g := G();
      TruncStart(g, n);
      var i := 0;
      while i < NDIRECT
        invariant 0 <= i <= NDIRECT && FsOk(G()) && Truncing(g, G(), n) && Emptied(G(), n, i) && |inodes| == |g.inodes|
        modifies this`disk, this`inodes, this`owner, this`logged
      {
        InodesOk(G(), n);
        AddrSlot(G(), n, i);
        if inodes[n].addrs[i] != 0 {
          ghost var g1 := G();
          SlotsAll(g1, n, i);
          Bfree(inodes[n].addrs[i], n, i, i);
          TruncingFree(g, g1, n, i, inodes[n].addrs[i]);
          EmptiedSame(g1, G(), n, i);
          ClearStep(g, G(), n, i, i + 1);
          inodes := inodes[n := Inode(inodes[n].size, inodes[n].addrs[i := 0])];
        } else {
          EmptiedHere(G(), n, i);
        }
        i := i + 1;
      }
      InodesOk(G(), n);
      if inodes[n].addrs[NDIRECT] != 0 {
        FreeIndirect(n, g);
      } else {
        NoRootEmptied(G(), n);
      }
      TruncDone(g, G(), n);
      inodes := inodes[n := Inode(0, inodes[n].addrs)];
      if AllWhole(g) {
        TruncWhole(g, G(), n);
      }
      Iupdate(n);
    }

    /** The part of itrunc that frees the indirect block and the blocks it lists. */
    method FreeIndirect(n: nat, ghost g: Fs)
      requires FsOk(G()) && Truncing(g, G(), n) && n < |inodes| && InodeOk(inodes[n]) && inodes[n].addrs[NDIRECT] != 0
      requires Emptied(G(), n, NDIRECT)
      modifies this`disk, this`inodes, this`owner, this`logged
      ensures FsOk(G()) && Truncing(g, G(), n) && Emptied(G(), n, ROOT + 1) && |inodes| == |old(inodes)|
    {
      hide Bits, Slots, SlotsBut, NoneTaken, Truncing, Emptied, SlotVal, SameSlots, Freed, BitBlock, Word;
      var root := inodes[n].addrs[NDIRECT];
      RootSlot(G(), n);
      var bp := disk[root];
      SlotsAll(G(), n, NDIRECT);
      SelfSlots(G());
      ghost var g0 := G();
      var j := 0;
      while j < NINDIRECT
        invariant 0 <= j <= NINDIRECT && Bits(G()) && SlotsBut(G(), n, NDIRECT, NDIRECT + j) && Truncing(g, G(), n)
        invariant Emptied(G(), n, NDIRECT)
        invariant inodes == g0.inodes && SameSlots(g0, G())
      {
        ghost var g1 := G();
        SlotIsWord(g0, g1, n, j);
        if Word(bp, j) != 0 {
          Bfree(Word(bp, j), n, NDIRECT, NDIRECT + j);
          TruncingFree(g, g1, n, NDIRECT + j, Word(bp, j));
          EmptiedSame(g1, G(), n, NDIRECT);
          SlotsTrans(g0, g1, G());
        } else {
          SkipFree(G(), n, NDIRECT, NDIRECT + j);
        }
        j := j + 1;
      }
      ghost var g2 := G();
      AddrSlot(g2, n, NDIRECT);
      Bfree(root, n, NDIRECT, ROOT);
      TruncingFree(g, g2, n, ROOT, root);
      EmptiedSame(g2, G(), n, NDIRECT);
      ClearStep(g, G(), n, NDIRECT, ROOT + 1);
      inodes := inodes[n := Inode(inodes[n].size, inodes[n].addrs[NDIRECT := 0])];
    }

    /** One transaction of filewrite: begin_op, writei of at most three blocks' worth of
        bytes, end_op. It fits in the log space that begin_op reserved. */
    method WriteChunk(n: nat, off: Uint, src: seq<Byte>) returns (r: int)
      requires Valid() && n < |inodes| && InodeOk(inodes[n]) && |src| <= CHUNK && NoHoles(G(), n)
      requires Fits(inodes[n].size, off, |src|) ==>
                 off / BSIZE + Touched(off, |src|) <= MAXFILE
                   && |FreeSet(G())| >= Need(G(), n, off / BSIZE, Touched(off, |src|))
      modifies this
      ensures AllWhole(old(G())) ==> AllWhole(G())
      ensures Valid() && |logged| <= MAXOPBLOCKS
      ensures r == -1 <==> off > old(inodes)[n].size || off + |src| > MAXFILE * BSIZE
      ensures r == -1 ==> G() == old(G()) && dinodes == old(dinodes)
      ensures r != -1 ==>
                && r == |src| && Wrote(old(G()), G(), n, off, src) && n < |inodes|
                && inodes[n].size == Max(old(inodes)[n].size, off + |src|)
                && dinodes == old(dinodes)[n := inodes[n]] && InodeOk(inodes[n]) && NoHoles(G(), n)
                && Filled(old(G()), G(), n, off / BSIZE, Touched(off, |src|))
                && |FreeSet(G())| == |FreeSet(old(G()))| - Need(old(G()), n, off / BSIZE, Touched(off, |src|))
    {
      hide FsOk, NoneTaken, FreeSet, Need, Touched, Wrote, Filled, NoHoles, AllWhole;
      logged := {};
      ghost var g := G();
      ghost var extra;
      r, extra := Writei(n, off, src);
      if r != -1 {
        ChunkNeeds(g, n, off, |src|);
        CardLess(logged, extra);
        FilledChunk(g, G(), n, off, |src|);
      }
    }

    /** One turn of filewrite's loop: the next chunk goes in, or nothing does. */
    method NextChunk(n: nat, off: nat, src: seq<Byte>, i: nat, ghost g: Fs, ghost off0: nat, ghost left: nat)
      returns (r: nat)
      requires Valid() && n < |inodes| && InodeOk(inodes[n]) && NoHoles(G(), n) && i < |src| < UINT32
      requires off == off0 + i && off < UINT32 && Wrote(g, G(), n, off0, src[..i])
      requires left == Accepted(inodes[n].size, off, |src| - i) && WriteReady(G(), n, off, left)
      modifies this
      ensures Valid() && n < |inodes| && InodeOk(inodes[n]) && NoHoles(G(), n) && (AllWhole(old(G())) ==> AllWhole(G()))
      ensures i + r <= |src| && r <= left && Wrote(g, G(), n, off0, src[..i + r])
      ensures inodes[n].size == if r == 0 then old(inodes)[n].size else Max(old(inodes)[n].size, off + r)
      ensures left == r + Accepted(inodes[n].size, off + r, |src| - i - r) && WriteReady(G(), n, off + r, left - r)
      ensures r == 0 ==> left == 0
    {
      hide FsOk, NoneTaken, FreeSet, Need, Touched, Wrote, Filled, NoHoles, Accepted, AllWhole, WriteReady;
      var n1 := |src| - i;
      if n1 > CHUNK {
        n1 := CHUNK;
      }
      ghost var g1 := G();
      AcceptedStep(inodes[n].size, off, |src| - i);
      ChunkReady(g1, n, off, n1, left);
      var got := WriteChunk(n, off, src[i..i + n1]);
      if got != n1 {
        return 0;
      }
      WroteJoin(g, g1, G(), n, off0, src, i, n1);
      RestReady(g1, G(), n, off, n1, left - n1);
      r := n1;
    }

    /** filewrite, for a file that is an inode: chunk after chunk until one does not fit.
        `off` is f->off. */
    method FileWrite(n: nat, off0: Uint, src: seq<Byte>, len: int) returns (ret: int, off: nat)
      requires Valid() && n < |inodes| && InodeOk(inodes[n]) && NoHoles(G(), n)
      requires |src| == (if len < 0 then 0 else len) && len < UINT32
      requires WriteReady(G(), n, off0, Accepted(inodes[n].size, off0, |src|))
      modifies this
      ensures Valid() && n < |inodes| && InodeOk(inodes[n]) && NoHoles(G(), n) && (AllWhole(old(G())) ==> AllWhole(G()))
      ensures var w := Accepted(old(inodes)[n].size, off0, |src|);
              && Wrote(old(G()), G(), n, off0, src[..w]) && off == off0 + w && ret == (if w == len then len else -1)
              && inodes[n].size == if w == 0 then old(inodes)[n].size else Max(old(inodes)[n].size, off0 + w)
    {
      hide FsOk, NoneTaken, FreeSet, Need, Touched, Wrote, Filled, NoHoles, Accepted, AllWhole, WriteReady;
      ghost var g, size := G(), inodes[n].size;
      ghost var w := Accepted(size, off0, |src|);
      StartFileWrite(g, n, off0);
      assert src[..0] == [];
      var i := 0;
      off := off0;
      while i < len
        invariant 0 <= i <= |src| && off == off0 + i
        invariant Valid() && n < |inodes| && InodeOk(inodes[n]) && NoHoles(G(), n) && Wrote(g, G(), n, off0, src[..i])
        invariant inodes[n].size == (if i == 0 then size else Max(size, off0 + i)) && (AllWhole(g) ==> AllWhole(G()))
        invariant w == i + Accepted(inodes[n].size, off, |src| - i) && WriteReady(G(), n, off, w - i)
      {
        var r := NextChunk(n, off, src, i, g, off0, w - i);
        off := off + r;
        i := i + r;
        if r == 0 {
          break;
        }
      }
      AcceptedNone(inodes[n].size, off);
      ret := if i == len then len else -1;
    }
  }
}
