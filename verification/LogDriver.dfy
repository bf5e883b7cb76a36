/** kernel/log.c in its own form: the in-memory header `lh` (its n is the length), the
    pinned buffers it names, and disk writes issued one at a time. `hist` records every
    image the disk ever had, so "a crash at any moment" is "any element of hist".
    Buffers are not recycled here; that is the business of BufferRing and LogMachine. */
module LogDriver {
  import opened Common
  import opened Blocks
  import opened LogSpec
  import opened LogCrash

  datatype Buf = Buf(data: Block, refcnt: nat)
  type Bufs = map<nat, Buf>

  function Refs(m: Bufs, b: nat): nat {
    if b in m then m[b].refcnt else 0
  }

  /** Every listed block is cached and referenced, so it cannot be recycled. */
  ghost predicate Pinned(bufs: Bufs, lh: seq<nat>) {
    forall i :: 0 <= i < |lh| ==> lh[i] in bufs && bufs[lh[i]].refcnt >= 1
  }

  /** A cached block that is neither listed nor being modified equals the disk. */
  ghost predicate Coherent(bufs: Bufs, lh: seq<nat>, dirty: set<nat>, d: DiskImage) {
    forall b :: b in bufs ==> b < |d| && (b !in lh && b !in dirty ==> bufs[b].data == d[b])
  }

  /** What the transaction would write: the cached content of each listed block. */
  ghost function Contents(bufs: Bufs, lh: seq<nat>): (s: seq<Block>)
    requires Pinned(bufs, lh)
    ensures |s| == |lh|
  {
    seq(|lh|, i requires 0 <= i < |lh| => bufs[lh[i]].data)
  }

  /** Reference counts are as before, and so is the data outside the log area. */
  ghost predicate SameBuffers(lay: Layout, b0: Bufs, b1: Bufs) {
    forall b :: b in b0 ==> b in b1 && b1[b].refcnt == b0[b].refcnt && (!InLog(lay, b) ==> b1[b].data == b0[b].data)
  }

  /** Every listed block lost exactly its pin. */
  ghost predicate PinsReturned(lay: Layout, b0: Bufs, b1: Bufs, lh: seq<nat>) {
    forall b :: b in b0 ==>
      b in b1 && b1[b].refcnt == b0[b].refcnt - (if b in lh then 1 else 0)
        && (!InLog(lay, b) ==> b1[b].data == b0[b].data)
  }

  lemma SameBuffersRefl(lay: Layout, b0: Bufs)
    ensures SameBuffers(lay, b0, b0)
  {
  }

  lemma SameBuffersTrans(lay: Layout, b0: Bufs, b1: Bufs, b2: Bufs)
    requires SameBuffers(lay, b0, b1) && SameBuffers(lay, b1, b2)
    ensures SameBuffers(lay, b0, b2)
  {
  }

  lemma SameContents(lay: Layout, d: DiskImage, b0: Bufs, b1: Bufs, lh: seq<nat>)
    requires Pinned(b0, lh) && SameBuffers(lay, b0, b1) && Loggable(lay, d, lh)
    ensures Pinned(b1, lh) && Contents(b1, lh) == Contents(b0, lh)
  {
    forall i | 0 <= i < |lh| ensures lh[i] in b1 && b1[lh[i]].refcnt >= 1 && b1[lh[i]].data == b0[lh[i]].data {
      assert Home(lay, d, lh[i]);
    }
  }

  /** Writing a slot through its buffer disturbs neither the listed blocks nor coherence. */
  lemma SlotBufferKeeps(lay: Layout, bufs: Bufs, lh: seq<nat>, d: DiskImage, i: nat, buf: Buf)
    requires Fits(lay, d) && Loggable(lay, d, lh) && Pinned(bufs, lh) && Coherent(bufs, lh, {}, d)
    requires i < Capacity(lay) && (Slot(lay, i) in bufs ==> bufs[Slot(lay, i)].refcnt == buf.refcnt)
    ensures var b1, d1 := bufs[Slot(lay, i) := buf], d[Slot(lay, i) := buf.data];
            Loggable(lay, d1, lh) && Pinned(b1, lh) && Coherent(b1, lh, {}, d1) && SameBuffers(lay, bufs, b1)
  {
    forall j | 0 <= j < |lh| ensures lh[j] != Slot(lay, i) && Home(lay, d, lh[j]) {
    }
  }

  /** Taking and dropping references to two buffers leaves only the data written. */
  lemma CopyChain(m0: Bufs, m1: Bufs, m2: Bufs, m3: Bufs, m4: Bufs, m5: Bufs, src: nat, dst: nat, to: Block,
    from: Block)
    requires src != dst
    requires m1 == m0[dst := Buf(to, Refs(m0, dst) + 1)]
    requires m2 == m1[src := Buf(from, Refs(m1, src) + 1)]
    requires m3 == m2[dst := Buf(from, Refs(m2, dst))]
    requires m4 == m3[src := Buf(m3[src].data, m3[src].refcnt - 1)]
    requires m5 == m4[dst := Buf(m4[dst].data, m4[dst].refcnt - 1)]
    ensures m5 == m0[dst := Buf(from, Refs(m0, dst))][src := Buf(from, Refs(m0, src))]
  {
  }

  lemma HeaderNotListed(lay: Layout, d: DiskImage, bufs: Bufs, lh: seq<nat>)
    requires Fits(lay, d) && Loggable(lay, d, lh) && Coherent(bufs, lh, {}, d)
    ensures lay.start in bufs ==> bufs[lay.start].data == d[lay.start]
  {
    assert forall i :: 0 <= i < |lh| ==> Home(lay, d, lh[i]);
  }

  lemma NothingToCommit(lay: Layout, d: DiskImage, bufs: Bufs)
    ensures AllOrNothing(lay, d, d, [], [], false) && PinsReturned(lay, bufs, bufs, []) && CrashSafe(lay, d, [], [], [])
  {
  }

  lemma PinsThenHead(lay: Layout, b0: Bufs, b1: Bufs, b2: Bufs, b3: Bufs, lh: seq<nat>)
    requires SameBuffers(lay, b0, b1) && PinsReturned(lay, b1, b2, lh) && SameBuffers(lay, b2, b3)
    ensures PinsReturned(lay, b0, b3, lh)
  {
  }

  /** install_trans after `tail` turns: b0 are the buffers it started from. */
  ghost predicate Partway(lay: Layout, recovering: bool, b0: Bufs, b1: Bufs, lh: seq<nat>, tail: nat, d: DiskImage)
    requires Fits(lay, d) && Loggable(lay, d, lh)
  {
    && (forall b :: b in b1 ==> b < |d| && (b !in lh ==> b1[b].data == d[b]))
    && (forall i :: 0 <= i < |lh| && lh[i] in b1 && (recovering || i < tail) ==>
       lh[i] < |d| && b1[lh[i]].data == d[lh[i]])
    && (!recovering ==>
          && (forall b :: b in b0 && b !in lh ==>
                b in b1 && b1[b].refcnt == b0[b].refcnt && (!InLog(lay, b) ==> b1[b].data == b0[b].data))
          && (forall i :: 0 <= i < |lh| ==> MidPin(lay, b0, b1, lh, tail, d, i)))
  }

  ghost predicate MidPin(lay: Layout, b0: Bufs, b1: Bufs, lh: seq<nat>, tail: nat, d: DiskImage, i: nat)
    requires Fits(lay, d) && Loggable(lay, d, lh) && i < |lh|
  {
    && lh[i] in b0 && lh[i] in b1
    && b1[lh[i]].refcnt == b0[lh[i]].refcnt - (if i < tail then 1 else 0)
    && b0[lh[i]].refcnt >= 1
    && b1[lh[i]].data == b0[lh[i]].data == d[Slot(lay, i)]
  }

  lemma SlotNotListed(lay: Layout, d: DiskImage, lh: seq<nat>, i: nat)
    requires Loggable(lay, d, lh) && i < Capacity(lay)
    ensures Slot(lay, i) !in lh
  {
    forall j | 0 <= j < |lh| ensures lh[j] != Slot(lay, i) {
      assert Home(lay, d, lh[j]);
    }
  }

  lemma PartwayStart(lay: Layout, recovering: bool, bufs: Bufs, lh: seq<nat>, d: DiskImage)
    requires Fits(lay, d) && Loggable(lay, d, lh)
    requires Coherent(bufs, if recovering then [] else lh, {}, d)
    requires !recovering ==> Pinned(bufs, lh) && forall i :: 0 <= i < |lh| ==> Contents(bufs, lh)[i] == d[Slot(lay, i)]
    ensures Partway(lay, recovering, bufs, bufs, lh, 0, d)
  {
    if !recovering {
      var tail := 0;
      forall i | 0 <= i < |lh| ensures MidPin(lay, bufs, bufs, lh, tail, d, i) {
        assert Contents(bufs, lh)[i] == bufs[lh[i]].data;
      }
    }
  }

  lemma PartwayReady(lay: Layout, recovering: bool, b0: Bufs, b1: Bufs, lh: seq<nat>, tail: nat, d: DiskImage)
    requires Fits(lay, d) && Loggable(lay, d, lh) && tail < |lh| && Partway(lay, recovering, b0, b1, lh, tail, d)
    ensures lh[tail] < |d| && (Slot(lay, tail) in b1 ==> b1[Slot(lay, tail)].data == d[Slot(lay, tail)])
    ensures !recovering ==> lh[tail] in b1 && b1[lh[tail]].refcnt >= 1
  {
    assert Home(lay, d, lh[tail]);
    SlotNotListed(lay, d, lh, tail);
    assert !recovering ==> MidPin(lay, b0, b1, lh, tail, d, tail);
  }

  lemma PartwayStep(lay: Layout, recovering: bool, b0: Bufs, b1: Bufs, b2: Bufs, lh: seq<nat>, tail: nat,
                    d: DiskImage, e: DiskImage)
    requires Fits(lay, d) && Loggable(lay, d, lh) && tail < |lh| && lh[tail] < |d|
    requires Partway(lay, recovering, b0, b1, lh, tail, d)
    requires e == d[lh[tail] := d[Slot(lay, tail)]]
    requires recovering || Refs(b1, lh[tail]) >= 1
    requires b2 == b1[lh[tail] := Buf(e[lh[tail]], Refs(b1, lh[tail]) - if recovering then 0 else 1)]
                     [Slot(lay, tail) := Buf(e[lh[tail]], Refs(b1, Slot(lay, tail)))]
    ensures Loggable(lay, e, lh) && Partway(lay, recovering, b0, b2, lh, tail + 1, e)
  {
    hide MidPin, Distinct;
    SlotNotListed(lay, d, lh, tail);
    assert forall i :: 0 <= i < |lh| ==> Home(lay, d, lh[i]);
    assert Loggable(lay, e, lh);
    assert forall b :: b in b2 ==> b < |e| && (b !in lh ==> b2[b].data == e[b]);
    ListedStep(recovering, b1, b2, lh, tail, Slot(lay, tail), d, e);
    if !recovering {
      PinAt(lay, b0, b1, lh, tail, d, tail);
      MidPinStep(lay, b0, b1, b2, lh, tail, d, e);
    }
  }

  lemma PinAt(lay: Layout, b0: Bufs, b1: Bufs, lh: seq<nat>, tail: nat, d: DiskImage, i: nat)
    requires Fits(lay, d) && Loggable(lay, d, lh) && i < |lh| && MidPin(lay, b0, b1, lh, tail, d, i)
    ensures lh[i] in b0 && lh[i] in b1 && (i >= tail ==> b1[lh[i]].refcnt >= 1)
  {
  }

  lemma ListedStep(recovering: bool, b1: Bufs, b2: Bufs, lh: seq<nat>, tail: nat, slot: nat, d: DiskImage, e: DiskImage)
    requires tail < |lh| && lh[tail] < |d| && slot < |d| && slot !in lh && Distinct(lh)
    requires forall i :: 0 <= i < |lh| && lh[i] in b1 && (recovering || i < tail) ==>
             lh[i] < |d| && b1[lh[i]].data == d[lh[i]]
    requires e == d[lh[tail] := d[slot]]
    requires exists r, q :: b2 == b1[lh[tail] := Buf(e[lh[tail]], r)][slot := Buf(e[lh[tail]], q)]
    ensures forall i :: 0 <= i < |lh| && lh[i] in b2 && (recovering || i < tail + 1) ==>
            lh[i] < |e| && b2[lh[i]].data == e[lh[i]]
  {
  }

  lemma MidPinStep(lay: Layout, b0: Bufs, b1: Bufs, b2: Bufs, lh: seq<nat>, tail: nat, d: DiskImage, e: DiskImage)
    requires Fits(lay, d) && Loggable(lay, d, lh) && tail < |lh| && lh[tail] < |d|
    requires forall i :: 0 <= i < |lh| ==> MidPin(lay, b0, b1, lh, tail, d, i)
    requires e == d[lh[tail] := d[Slot(lay, tail)]] && Loggable(lay, e, lh)
    requires lh[tail] in b1 && b1[lh[tail]].refcnt >= 1
    requires b2 == b1[lh[tail] := Buf(e[lh[tail]], b1[lh[tail]].refcnt - 1)]
                     [Slot(lay, tail) := Buf(e[lh[tail]], Refs(b1, Slot(lay, tail)))]
    ensures var next := tail + 1; forall i :: 0 <= i < |lh| ==> MidPin(lay, b0, b2, lh, next, e, i)
  {
    SlotNotListed(lay, d, lh, tail);
    var next := tail + 1;
    forall i | 0 <= i < |lh| ensures MidPin(lay, b0, b2, lh, next, e, i) {
      assert MidPin(lay, b0, b1, lh, tail, d, i);
      SlotNotListed(lay, d, lh, i);
      assert e[Slot(lay, i)] == d[Slot(lay, i)];
    }
  }

  lemma PartwayEnd(lay: Layout, recovering: bool, b0: Bufs, b1: Bufs, lh: seq<nat>, d: DiskImage)
    requires Fits(lay, d) && Loggable(lay, d, lh) && Partway(lay, recovering, b0, b1, lh, |lh|, d)
    ensures Coherent(b1, [], {}, d)
    ensures !recovering ==> PinsReturned(lay, b0, b1, lh)
  {
    forall b | b in b1 ensures b1[b].data == d[b] {
      if b in lh {
        var i :| 0 <= i < |lh| && lh[i] == b;
      }
    }
    if !recovering {
      forall b | b in b0 && b in lh
        ensures b in b1 && b1[b].refcnt == b0[b].refcnt - 1 && b1[b].data == b0[b].data
      {
        var i :| 0 <= i < |lh| && lh[i] == b;
        assert MidPin(lay, b0, b1, lh, |lh|, d, i);
      }
    }
  }

  /** After the slots and the header are written, the cache still holds the transaction
      that the slots hold. */
  lemma HeadBufferKeeps(lay: Layout, b0: Bufs, b1: Bufs, lh: seq<nat>, d0: DiskImage, d: DiskImage, data: seq<Block>)
    requires Fits(lay, d) && |d0| == |d| && Loggable(lay, d0, lh) && Pinned(b0, lh) && Contents(b0, lh) == data
    requires d == d0[lay.start := d[lay.start]] && b1 == b0[lay.start := Buf(d[lay.start], Refs(b0, lay.start))]
    requires Coherent(b0, lh, {}, d0)
    ensures SameBuffers(lay, b0, b1)
    ensures Loggable(lay, d, lh) && Pinned(b1, lh) && Contents(b1, lh) == data && Coherent(b1, lh, {}, d)
  {
    assert forall i :: 0 <= i < |lh| ==> Home(lay, d0, lh[i]) && Home(lay, d, lh[i]);
    assert forall i :: 0 <= i < |lh| ==> lh[i] != lay.start;
  }

  class Log {
    const lay: Layout
    var disk: DiskImage
    var bufs: Bufs
    var lh: seq<nat>
    var outstanding: nat
    var committing: bool
    /** Buffers modified since their last log_write. */
    ghost var dirty: set<nat>
    ghost var hist: seq<DiskImage>

    ghost predicate Shape()
      reads this
    {
      && Fits(lay, disk)
      && hist != [] && hist[|hist| - 1] == disk
      && |lh| <= Capacity(lay)
      && (forall b :: b in bufs ==> b < |disk|)
    }

    ghost predicate Valid()
      reads this
    {
      && Shape()
      && Loggable(lay, disk, lh)
      && Pinned(bufs, lh)
      && Coherent(bufs, lh, dirty, disk)
      && (committing ==> outstanding == 0)
    }

    constructor (lay: Layout, image: DiskImage)
      requires Recoverable(lay, image)
      ensures this.lay == lay && disk == image && bufs == map[] && hist == [image]
      ensures Valid() && lh == [] && outstanding == 0 && !committing && dirty == {}
    {
      this.lay := lay;
      disk, bufs, lh, outstanding, committing := image, map[], [], 0, false;
      dirty, hist := {}, [image];
    }

    // ---- Buffer operations ----

    method Bread(b: nat) returns (data: Block)
      requires Shape() && b < |disk|
      modifies this`bufs
      ensures bufs == old(bufs)[b := Buf(data, Refs(old(bufs), b) + 1)]
      ensures data == if b in old(bufs) then old(bufs[b].data) else disk[b]
    {
      if b in bufs {
        data := bufs[b].data;
        bufs := bufs[b := bufs[b].(refcnt := bufs[b].refcnt + 1)];
      } else {
        data := disk[b];
        bufs := bufs[b := Buf(data, 1)];
      }
    }

    /** Put `data` in the buffer and write it to the disk: one atomic block write. */
    method Bwrite(b: nat, data: Block)
      requires Shape() && b in bufs
      modifies this`bufs, this`disk, this`hist
      ensures Shape() && disk == old(disk)[b := data] && hist == old(hist) + [disk]
      ensures bufs == old(bufs)[b := Buf(data, Refs(old(bufs), b))]
    {
      bufs := bufs[b := bufs[b].(data := data)];
      disk := disk[b := data];
      hist := hist + [disk];
    }

    method Brelse(b: nat)
      requires b in bufs && bufs[b].refcnt > 0
      modifies this`bufs
      ensures bufs == old(bufs)[b := Buf(old(bufs[b].data), old(bufs[b].refcnt) - 1)]
    {
      bufs := bufs[b := bufs[b].(refcnt := bufs[b].refcnt - 1)];
    }

    /** A caller holding buffer b changes its data in memory. */
    method Modify(b: nat, data: Block)
      requires Valid() && b in bufs && bufs[b].refcnt > 0
      modifies this`bufs, this`dirty
      ensures Valid() && dirty == old(dirty) + {b}
      ensures bufs == old(bufs)[b := Buf(data, Refs(old(bufs), b))]
    {
      bufs := bufs[b := bufs[b].(data := data)];
      dirty := dirty + {b};
    }

    // ---- Operations ----

    /** One turn of begin_op's loop: admitted, or sent back to sleep. */
    method BeginOp() returns (admitted: bool)
      requires Valid()
      modifies this`outstanding
      ensures Valid()
      ensures admitted <==> !committing && |lh| + (old(outstanding) + 1) * MAXOPBLOCKS <= LOGSIZE
      ensures outstanding == old(outstanding) + if admitted then 1 else 0
    {
      if committing {
        admitted := false;
      } else if |lh| + (outstanding + 1) * MAXOPBLOCKS > LOGSIZE {
        admitted := false;
      } else {
        outstanding := outstanding + 1;
        admitted := true;
      }
    }

    /** Absorbs a block that is already listed, otherwise lists and pins it. */
    method LogWrite(b: nat)
      requires Valid() && b in bufs && Home(lay, disk, b)
      requires |lh| < LOGSIZE && |lh| < lay.size - 1  // panic "too big a transaction"
      requires outstanding >= 1                       // panic "log_write outside of trans"
      modifies this`lh, this`bufs, this`dirty
      ensures Valid() && dirty == old(dirty) - {b}
      ensures lh == if b in old(lh) then old(lh) else old(lh) + [b]
      ensures bufs == if b in old(lh) then old(bufs)
                      else old(bufs)[b := Buf(old(bufs[b].data), old(bufs[b].refcnt) + 1)]
    {
      var i := 0;
      while i < |lh| && lh[i] != b
        invariant 0 <= i <= |lh| && b !in lh[..i]
      {
        i := i + 1;
      }
      if i == |lh| {
        assert lh[..i] == lh;
        bufs := bufs[b := bufs[b].(refcnt := bufs[b].refcnt + 1)];
        assert forall x :: x in lh + [b] <==> x in lh || x == b;
        lh := lh + [b];
      } else {
        assert lh[i] in lh && lh[i := b] == lh;
        lh := lh[i := b];
      }
      dirty := dirty - {b};
    }

    // ---- Commit ----

    /** Copy one cached block over another and write that one to the disk, as the loop
        bodies of write_log and install_trans do. */
    method CopyBlock(src: nat, dst: nat)
      requires Shape() && src < |disk| && dst < |disk| && src != dst
      modifies this`bufs, this`disk, this`hist
      ensures Shape() && hist == old(hist) + [disk]
      ensures var data := if src in old(bufs) then old(bufs[src].data) else old(disk[src]);
              && disk == old(disk)[dst := data]
              && bufs == old(bufs)[dst := Buf(data, Refs(old(bufs), dst))]
                                  [src := Buf(data, Refs(old(bufs), src))]
    {
      ghost var m0 := bufs;
      var to := Bread(dst);
      ghost var m1 := bufs;
      var from := Bread(src);
      ghost var m2 := bufs;
      Bwrite(dst, from);
      ghost var m3 := bufs;
      Brelse(src);
      ghost var m4 := bufs;
      Brelse(dst);
      CopyChain(m0, m1, m2, m3, m4, bufs, src, dst, to, from);
    }

    /** One turn of write_log's loop: the cached block goes to slot `tail`. */
    method CopyToLog(tail: nat)
      requires Valid() && dirty == {} && tail < |lh|
      modifies this`bufs, this`disk, this`hist
      ensures Valid() && disk == old(disk)[Slot(lay, tail) := old(bufs[lh[tail]].data)]
      ensures hist == old(hist) + [disk] && SameBuffers(lay, old(bufs), bufs)
    {
      var to, home := lay.start + tail + 1, lh[tail];
      assert Home(lay, disk, home);
      ghost var b := Buf(bufs[home].data, Refs(bufs, to));
      SlotBufferKeeps(lay, bufs, lh, disk, tail, b);
      CopyBlock(home, to);
      assert bufs == old(bufs)[to := b];
    }

    method WriteLog()
      requires Valid() && dirty == {}
      modifies this`bufs, this`disk, this`hist
      ensures Valid() && SameBuffers(lay, old(bufs), bufs)
      ensures disk == CommitDisk(lay, old(disk), lh, old(Contents(bufs, lh)), |lh|)
      ensures hist == old(hist) + CommitTrail(lay, old(disk), lh, old(Contents(bufs, lh)), |lh|)
    {
      hide EncodeHead, Coherent, SameBuffers, Home, Distinct, CommitDisk, CommitTrail;
      ghost var data := Contents(bufs, lh);
      CommitStart(lay, disk, lh, data);
      assert SameBuffers(lay, old(bufs), bufs) by { SameBuffersRefl(lay, bufs); }
      var tail := 0;
      while tail < |lh|
        invariant 0 <= tail <= |lh| && Valid() && SameBuffers(lay, old(bufs), bufs)
        invariant disk == CommitDisk(lay, old(disk), lh, data, tail)
        invariant hist == old(hist) + CommitTrail(lay, old(disk), lh, data, tail)
      {
        SameContents(lay, disk, old(bufs), bufs, lh);
        assert bufs[lh[tail]].data == Contents(bufs, lh)[tail] == data[tail];
        ghost var b := bufs;
        CommitSlot(lay, old(disk), lh, data, tail);
        CopyToLog(tail);
        SameBuffersTrans(lay, old(bufs), b, bufs);
        tail := tail + 1;
      }
    }

    method WriteHead()
      requires Shape() && (forall i :: 0 <= i < |lh| ==> lh[i] < UINT32)
      requires lay.start in bufs ==> bufs[lay.start].data == disk[lay.start]
      modifies this`bufs, this`disk, this`hist
      ensures Shape() && disk == old(disk)[lay.start := EncodeHead(old(disk)[lay.start], lh)]
      ensures hist == old(hist) + [disk] && SameBuffers(lay, old(bufs), bufs)
      ensures bufs == old(bufs)[lay.start := Buf(disk[lay.start], Refs(old(bufs), lay.start))]
    {
      hide SetWord;
      var buf := Bread(lay.start);
      ghost var before := buf;
      buf := SetWord(buf, 0, |lh|);
      var i := 0;
      while i < |lh|
        invariant 0 <= i <= |lh|
        invariant buf == SetWords(SetWord(before, 0, |lh|), 1, lh[..i])
      {
        assert lh[..i + 1][..i] == lh[..i];
        buf := SetWord(buf, 1 + i, lh[i]);
        i := i + 1;
      }
      assert lh[..i] == lh;
      Bwrite(lay.start, buf);
      Brelse(lay.start);
    }

    /** One turn of install_trans's loop. */
    method InstallOne(recovering: bool, tail: nat)
      requires Shape() && Loggable(lay, disk, lh) && tail < |lh|
      requires Slot(lay, tail) in bufs ==> bufs[Slot(lay, tail)].data == disk[Slot(lay, tail)]
      requires !recovering ==> lh[tail] in bufs && bufs[lh[tail]].refcnt >= 1
      modifies this`bufs, this`disk, this`hist
      ensures Shape() && hist == old(hist) + [disk]
      ensures var slot, home := Slot(lay, tail), lh[tail];
              && disk == old(disk)[home := old(disk)[slot]]
              && bufs == old(bufs)[home := Buf(disk[home], Refs(old(bufs), home) - if recovering then 0 else 1)]
                                  [slot := Buf(disk[home], Refs(old(bufs), slot))]
    {
      var slot, home := lay.start + tail + 1, lh[tail];
      assert Home(lay, disk, home);
      CopyBlock(slot, home);
      if !recovering {
        Brelse(home);  // bunpin: drops one reference, does not touch the LRU list
      }
    }

    /** install_trans after `tail` turns, having started from b0, d0 and h0. */
    ghost predicate Installing(recovering: bool, tail: nat, b0: Bufs, d0: DiskImage, h0: seq<DiskImage>)
      reads this
    {
      && tail <= |lh| && Shape() && Loggable(lay, disk, lh)
      && Slot(lay, |lh|) <= |d0| && (forall i :: 0 <= i < |lh| ==> lh[i] < |d0|)
      && Partway(lay, recovering, b0, bufs, lh, tail, disk)
      && disk == InstallFirst(lay, d0, lh, tail)
      && hist == h0 + InstallTrail(lay, d0, lh, tail)
    }

    lemma InstallBegins(recovering: bool)
      requires Shape() && Loggable(lay, disk, lh)
      requires Coherent(bufs, if recovering then [] else lh, {}, disk)
      requires !recovering ==> Pinned(bufs, lh) && forall i :: 0 <= i < |lh| ==>
               Contents(bufs, lh)[i] == disk[Slot(lay, i)]
      ensures Installing(recovering, 0, bufs, disk, hist)
    {
      hide Partway, Coherent, Pinned, Distinct;
      assert forall i :: 0 <= i < |lh| ==> Home(lay, disk, lh[i]);
      PartwayStart(lay, recovering, bufs, lh, disk);
    }

    lemma InstallEnds(recovering: bool, b0: Bufs, d0: DiskImage, h0: seq<DiskImage>)
      requires Installing(recovering, |lh|, b0, d0, h0)
      ensures Shape() && Coherent(bufs, [], {}, disk)
      ensures Slot(lay, |lh|) <= |d0| && (forall i :: 0 <= i < |lh| ==> lh[i] < |d0|)
      ensures disk == InstallFirst(lay, d0, lh, |lh|) && hist == h0 + InstallTrail(lay, d0, lh, |lh|)
      ensures !recovering ==> PinsReturned(lay, b0, bufs, lh)
    {
      hide Partway, Coherent, PinsReturned, Distinct, Home;
      PartwayEnd(lay, recovering, b0, bufs, lh, disk);
    }

    method InstallTurn(recovering: bool, tail: nat, ghost b0: Bufs, ghost d0: DiskImage, ghost h0: seq<DiskImage>)
      requires tail < |lh| && Installing(recovering, tail, b0, d0, h0)
      modifies this`bufs, this`disk, this`hist
      ensures Installing(recovering, tail + 1, b0, d0, h0)
    {
      hide EncodeHead, Partway, Home, Distinct;
      ghost var b1, d1 := bufs, disk;
      PartwayReady(lay, recovering, b0, bufs, lh, tail, disk);
      InstallOne(recovering, tail);
      assert InstallFirst(lay, d0, lh, tail + 1) == disk;
      assert hist == h0 + (InstallTrail(lay, d0, lh, tail) + [disk]);
      PartwayStep(lay, recovering, b0, b1, bufs, lh, tail, d1, disk);
    }

    method InstallTrans(recovering: bool)
      requires Shape() && Loggable(lay, disk, lh)
      requires Coherent(bufs, if recovering then [] else lh, {}, disk)
      requires !recovering ==> Pinned(bufs, lh) && forall i :: 0 <= i < |lh| ==>
               Contents(bufs, lh)[i] == disk[Slot(lay, i)]
      modifies this`bufs, this`disk, this`hist
      ensures Shape() && Coherent(bufs, [], {}, disk)
      ensures (forall i :: 0 <= i < |lh| ==> lh[i] < |old(disk)|)
      ensures disk == InstallFirst(lay, old(disk), lh, |lh|)
      ensures hist == old(hist) + InstallTrail(lay, old(disk), lh, |lh|)
      ensures !recovering ==> PinsReturned(lay, old(bufs), bufs, lh)
    {
      hide EncodeHead, Coherent, PinsReturned, Pinned, Loggable, Installing, InstallFirst, InstallTrail, Contents, Slot,
        Shape;
      InstallBegins(recovering);
      var tail := 0;
      while tail < |lh|
        invariant 0 <= tail <= |lh| && Installing(recovering, tail, old(bufs), old(disk), old(hist))
      {
        InstallTurn(recovering, tail, old(bufs), old(disk), old(hist));
        tail := tail + 1;
      }
      InstallEnds(recovering, old(bufs), old(disk), old(hist));
    }

    /** commit() up to its second line: the slots, then the header. */
    method WriteTransaction()
      requires Valid() && dirty == {}
      modifies this`bufs, this`disk, this`hist
      ensures Valid() && SameBuffers(lay, old(bufs), bufs) && Contents(bufs, lh) == old(Contents(bufs, lh))
      ensures disk == CommitDisk(lay, old(disk), lh, old(Contents(bufs, lh)), |lh| + 1)
      ensures hist == old(hist) + CommitTrail(lay, old(disk), lh, old(Contents(bufs, lh)), |lh| + 1)
    {
      hide EncodeHead, SameBuffers, Coherent, Distinct, CommitDisk, CommitTrail;
      ghost var d0, data := disk, Contents(bufs, lh);
      assert forall i :: 0 <= i < |lh| ==> Home(lay, d0, lh[i]);
      WriteLog();
      SameContents(lay, disk, old(bufs), bufs, lh);
      ghost var b1, d1 := bufs, disk;
      HeaderNotListed(lay, disk, bufs, lh);
      WriteHead();
      HeadBufferKeeps(lay, b1, bufs, lh, d1, disk, data);
      SameBuffersTrans(lay, old(bufs), b1, bufs);
      HeadEnds(lay, d0, lh, data, old(hist));
    }

    /** commit() after the commit point: install, then erase the header. */
    method FinishCommit(ghost d0: DiskImage, ghost data: seq<Block>, ghost h0: seq<DiskImage>)
      requires Valid() && dirty == {} && Recoverable(lay, d0) && Header(lay, d0) == [] && Loggable(lay, d0, lh)
      requires Contents(bufs, lh) == data && disk == CommitDisk(lay, d0, lh, data, |lh| + 1)
      requires hist == h0 + CommitTrail(lay, d0, lh, data, |lh| + 1)
      modifies this`bufs, this`disk, this`hist, this`lh
      ensures Shape() && lh == [] && Coherent(bufs, [], {}, disk) && PinsReturned(lay, old(bufs), bufs, old(lh))
      ensures disk == CommitDisk(lay, d0, old(lh), data, 2 * |old(lh)| + 2)
      ensures hist == h0 + CommitTrail(lay, d0, old(lh), data, 2 * |old(lh)| + 2)
    {
      hide EncodeHead, DecodeHead, HeadOk, Recover, InstallFirst, Coherent, SameBuffers, PinsReturned, Distinct, Home;
      hide CommitDisk, CommitTrail;
      ghost var b1, l := bufs, lh;
      CommittedSlots(lay, d0, l, data);
      InstallTrans(false);
      CommitEnds(lay, d0, l, data, h0);
      ghost var b2, d2 := bufs, disk;
      HeaderNotListed(lay, disk, bufs, []);
      lh := [];
      WriteHead();
      HeadBufferKeeps(lay, b2, bufs, [], d2, disk, []);
      SameBuffersRefl(lay, b1);
      PinsThenHead(lay, b1, b1, b2, bufs, l);
    }

    /** commit(): either nothing to do, or 2n+2 block writes after which the transaction
        is on its home blocks and every pin is returned. Whatever prefix of those writes
        a crash lets through, recovery makes the transaction all or nothing. */
    method Commit()
      requires Valid() && dirty == {} && Recoverable(lay, disk) && Header(lay, disk) == []
      modifies this`bufs, this`disk, this`hist, this`lh
      ensures Valid() && lh == [] && Recoverable(lay, disk) && Header(lay, disk) == []
      ensures AllOrNothing(lay, old(disk), disk, old(lh), old(Contents(bufs, lh)), old(lh) != [])
      ensures PinsReturned(lay, old(bufs), bufs, old(lh)) && old(hist) <= hist
      ensures |hist| == |old(hist)| + if old(lh) == [] then 0 else 2 * |old(lh)| + 2
      ensures CrashSafe(lay, old(disk), hist[|old(hist)|..], old(lh), old(Contents(bufs, lh)))
    {
      hide EncodeHead, DecodeHead, HeadOk, Recover, InstallFirst, Coherent, SameBuffers, PinsReturned, Distinct;
      hide AllOrNothing, CrashSafe, Home, CommitDisk, CommitTrail;
      if |lh| == 0 {
        NothingToCommit(lay, disk, bufs);
        assert hist[|hist|..] == [];
      } else {
        ghost var d0, b0, data, l := disk, bufs, Contents(bufs, lh), lh;
        WriteTransaction();
        ghost var b1 := bufs;
        FinishCommit(d0, data, old(hist));
        SameBuffersRefl(lay, bufs);
        PinsThenHead(lay, b0, b1, bufs, bufs, l);
        assert hist[|old(hist)|..] == CommitTrail(lay, d0, l, data, 2 * |l| + 2);
        CommitDone(lay, d0, l, data);
        CommitTrailSafe(lay, d0, l, data);
      }
    }

    /** Drops one operation; the last one out commits. The "log.committing" panic cannot
        be reached. */
    method EndOp() returns (committed: bool)
      requires Valid() && outstanding >= 1 && Recoverable(lay, disk) && Header(lay, disk) == []
      requires outstanding == 1 ==> dirty == {}
      modifies this
      ensures Valid() && !committing && outstanding == old(outstanding) - 1
      ensures Recoverable(lay, disk) && Header(lay, disk) == [] && old(hist) <= hist
      ensures committed <==> outstanding == 0
      ensures !committed ==>
              lh == old(lh) && bufs == old(bufs) && disk == old(disk) && dirty == old(dirty) && hist == old(hist)
      ensures committed ==>
                && lh == [] && dirty == {} && PinsReturned(lay, old(bufs), bufs, old(lh))
                && AllOrNothing(lay, old(disk), disk, old(lh), old(Contents(bufs, lh)), old(lh) != [])
                && CrashSafe(lay, old(disk), hist[|old(hist)|..], old(lh), old(Contents(bufs, lh)))
    {
      hide PinsReturned, AllOrNothing, CrashSafe, Coherent, Recover, DecodeHead, HeadOk;
      outstanding := outstanding - 1;
      assert !committing;
      committed := outstanding == 0;
      if committed {
        committing := true;
        Commit();
        committing := false;
      }
    }

    // ---- Recovery ----

    method ReadHead()
      requires Shape() && Recoverable(lay, disk) && Coherent(bufs, [], {}, disk)
      modifies this`bufs, this`lh
      ensures Shape() && Coherent(bufs, [], {}, disk) && lh == Header(lay, disk)
    {
      var buf := Bread(lay.start);
      assert buf == disk[lay.start];
      ghost var head := DecodeHead(buf);
      var n := Word(buf, 0);
      lh := [];
      while |lh| < n
        modifies this`lh
        invariant |lh| <= n && lh == head[..|lh|]
      {
        assert head[|lh|] == Word(buf, 1 + |lh|);
        lh := lh + [Word(buf, 1 + |lh|)];
      }
      assert head[..n] == head;
      Brelse(lay.start);
    }

    /** Boot: read the header, install what it lists, erase it. Every image on the way
        still recovers to the same home blocks, so a crash here is harmless too. */
    method RecoverFromLog()
      requires Shape() && Recoverable(lay, disk) && Coherent(bufs, [], {}, disk)
      modifies this`bufs, this`lh, this`disk, this`hist
      ensures Shape() && Coherent(bufs, [], {}, disk) && lh == []
      ensures Recoverable(lay, disk) && Header(lay, disk) == [] && SameHome(lay, disk, old(Recover(lay, disk)))
      ensures hist == old(hist) + RecoverTrail(lay, old(disk), old(|Header(lay, disk)|) + 1)
      ensures forall d :: d in hist[|old(hist)|..] ==>
                Recoverable(lay, d) && SameHome(lay, Recover(lay, d), old(Recover(lay, disk)))
    {
      hide EncodeHead, DecodeHead, HeadOk, Recover, InstallFirst, SameBuffers, Coherent, Home, Distinct;
      hide RecoverDisk, RecoverTrail;
      ghost var d0 := disk;
      ReadHead();
      ghost var n := |lh|;
      InstallTrans(true);
      RecoverEnds(lay, d0, old(hist));
      ghost var b2, d2 := bufs, disk;
      HeaderNotListed(lay, disk, bufs, []);
      lh := [];
      WriteHead();
      HeadBufferKeeps(lay, b2, bufs, [], d2, disk, []);
      assert hist[|old(hist)|..] == RecoverTrail(lay, d0, n + 1);
      CrashInRecovery(lay, d0, n + 1);
      RecoverTrailSafe(lay, d0, n + 1);
    }
  }
}
