/** The virtio disk driver (kernel/virtio_disk.c:143-315; sections 2.6 and 5.2 of virtio
    1.1): descriptors, the two rings, and the steps of the processes that call
    virtio_disk_rw, of the interrupt handler and of the device. */
module Virtio {
  import opened Common

  const NUM := 8
  const WRAP := 0x1_0000

  // ---- Rings ----

  /** One ring: the producer writes ring[idx % NUM] and then adds 1 to idx; the consumer
      has read up to `seen`. Both are uint16. `unread`, what is in between, is bookkeeping. */
  datatype Ring = Ring(idx: nat, ring: seq<nat>, seen: nat, unread: seq<nat>)

  function RingPut(r: Ring, h: nat): Ring
    requires |r.ring| == NUM
  {
    r.(ring := r.ring[r.idx % NUM := h])
  }

  function RingBump(r: Ring, h: nat): Ring {
    r.(idx := (r.idx + 1) % WRAP, unread := r.unread + [h])
  }

  function RingTake(r: Ring): Ring {
    r.(seen := (r.seen + 1) % WRAP, unread := if r.unread == [] then [] else r.unread[1..])
  }

  /** What the consumer finds next. */
  function RingNext(r: Ring): nat
    requires |r.ring| == NUM
  {
    r.ring[r.seen % NUM]
  }

  // ---- Descriptors ----

  datatype Target = Nothing | Command(i: nat) | Data(b: nat) | Status(i: nat)

  datatype Desc = Desc(addr: Target, len: nat, write: bool, hasNext: bool, next: nat)

  const NODESC := Desc(Nothing, 0, false, false, 0)

  /** ops[i]: read or write, and from which sector. */
  datatype Command = Cmd(write: bool, sector: nat)

  /** `owner[i]` is the head of the chain that descriptor i is in. */
  datatype Descs = Descs(free: seq<bool>, desc: seq<Desc>, ops: seq<Command>, owner: seq<Option<nat>>)

  /** A caller of virtio_disk_rw: its buffer, direction and first sector. */
  datatype Request = Request(b: nat, write: bool, sector: nat)

  /** alloc_desc: the first free descriptor, or NUM. */
  function FirstFree(free: seq<bool>, from: nat): (i: nat)
    requires from <= |free|
    ensures from <= i <= |free| && (i < |free| ==> free[i]) && forall j :: from <= j < i ==> !free[j]
    decreases |free| - from
  {
    if from == |free| || free[from] then from else FirstFree(free, from + 1)
  }

  /** The three that alloc3_desc takes. */
  function Three(free: seq<bool>): (nat, nat, nat) {
    var i := FirstFree(free, 0);
    var j := if i < |free| then FirstFree(free, i + 1) else i;
    var k := if j < |free| then FirstFree(free, j + 1) else j;
    (i, j, k)
  }

  predicate CanAlloc(d: Descs) {
    Three(d.free).2 < |d.free|
  }

  /** The chain i, j, k set up for request r. */
  function Formatted(d: Descs, i: nat, j: nat, k: nat, r: Request): Descs
    requires i < |d.free| == |d.desc| == |d.ops| == |d.owner| && j < |d.free| && k < |d.free|
  {
    Descs(d.free[i := false][j := false][k := false],
          d.desc[i := Desc(Command(i), 16, false, true, j)]
                [j := Desc(Data(r.b), BSIZE, !r.write, true, k)]
                [k := Desc(Status(i), 1, true, false, 0)],
          d.ops[i := Cmd(r.write, r.sector)],
          d.owner[i := Some(i)][j := Some(i)][k := Some(i)])
  }

  /** free_desc. */
  function FreeDesc(d: Descs, i: nat): Descs
    requires i < |d.free| == |d.desc| == |d.ops| == |d.owner|
  {
    Descs(d.free[i := true], d.desc[i := NODESC], d.ops, d.owner[i := None])
  }

  /** What the device reads when it follows a chain from its head: the command, the
      buffer, and where the status goes. */
  function Served(d: Descs, h: nat): Option<Request>
    requires |d.free| == |d.desc| == |d.ops| == |d.owner|
  {
    if h >= |d.desc| || !d.desc[h].hasNext || d.desc[h].next >= |d.desc| || !d.desc[h].addr.Command?
      || d.desc[h].addr.i >= |d.ops| then None
    else
      var c, e := d.ops[d.desc[h].addr.i], d.desc[d.desc[h].next];
      if !e.addr.Data? || !e.hasNext || e.next >= |d.desc| || e.write == c.write || e.len != BSIZE then None
      else
        var f := d.desc[e.next];
        if !f.addr.Status? || !f.write || f.hasNext then None else Some(Request(e.addr.b, c.write, c.sector))
  }

  // ---- The driver's own code for descriptors ----

  class Driver {
    var d: Descs

    ghost predicate Shaped()
      reads this
    {
      |d.free| == NUM && |d.desc| == NUM && |d.ops| == NUM && |d.owner| == NUM
    }

    method AllocDesc() returns (r: int)
      requires Shaped()
      modifies this
      ensures Shaped() && d.desc == old(d).desc && d.ops == old(d).ops && d.owner == old(d).owner
      ensures var i := FirstFree(old(d).free, 0);
              if i < NUM then r == i && d.free == old(d).free[i := false] else r == -1 && d.free == old(d).free
    {
      var i := 0;
      while i < NUM
        invariant 0 <= i <= NUM && d == old(d)
        invariant FirstFree(d.free, 0) == FirstFree(d.free, i)
      {
        if d.free[i] {
          d := d.(free := d.free[i := false]);
          return i;
        }
        i := i + 1;
      }
      return -1;
    }

    /** free_desc: i is free and empty, every other descriptor is as it was. */
    method FreeOne(i: nat)
      requires Shaped() && i < NUM && !d.free[i]
      modifies this
      ensures Shaped() && d.free[i] && d.desc[i] == NODESC && d.owner[i] == None && d.ops == old(d).ops
      ensures forall j :: 0 <= j < NUM && j != i ==>
                d.free[j] == old(d).free[j] && d.desc[j] == old(d).desc[j] && d.owner[j] == old(d).owner[j]
      ensures d == FreeDesc(old(d), i)
    {
      d := Descs(d.free[i := true], d.desc[i := NODESC], d.ops, d.owner[i := None]);
    }

    /** alloc3_desc: three descriptors, or none. */
    method Alloc3Desc() returns (ok: bool, idx: (nat, nat, nat))
      requires Shaped()
      modifies this
      ensures Shaped() && ok == CanAlloc(old(d)) && d.ops == old(d).ops
      ensures ok ==> idx == Three(old(d).free) && d.desc == old(d).desc && d.owner == old(d).owner
                     && d.free == old(d).free[idx.0 := false][idx.1 := false][idx.2 := false]
      ensures !ok ==> d.free == old(d).free && forall i :: 0 <= i < NUM && !old(d).free[i] ==>
              d.desc[i] == old(d).desc[i] && d.owner[i] == old(d).owner[i]
    {
      hide FirstFree;
      idx := (0, 0, 0);
      ghost var f := d.free;
      var a := AllocDesc();
      if a < 0 {
        return false, idx;
      }
      SkipOne(f, a, 0);
      ghost var f1 := d.free;
      var b := AllocDesc();
      if b < 0 {
        FreeOne(a);
        return false, idx;
      }
      SkipOne(f1, b, 0);
      SkipTwo(f, a, b);
      var c := AllocDesc();
      if c < 0 {
        FreeOne(a);
        FreeOne(b);
        return false, idx;
      }
      return true, (a, b, c);
    }

    /** free_chain: follows next while the flag says so. */
    method FreeChain(h: nat, ghost j: nat, ghost k: nat)
      requires Shaped() && h < NUM && j < NUM && k < NUM && h != j && j != k && h != k && !d.free[h] && !d.free[j]
      requires !d.free[k]
      requires d.desc[h].hasNext && d.desc[h].next == j && d.desc[j].hasNext && d.desc[j].next == k
      requires !d.desc[k].hasNext
      modifies this
      ensures Shaped() && d == FreeDesc(FreeDesc(FreeDesc(old(d), h), j), k)
    {
      var i := h;
      ghost var n := 0;
      while true
        invariant 0 <= n <= 2 && Shaped() && i == (if n == 0 then h else if n == 1 then j else k)
        invariant d == if n == 0 then old(d) else if n == 1 then FreeDesc(old(d), h)
                  else FreeDesc(FreeDesc(old(d), h), j)
        decreases 3 - n
      {
        var e := d.desc[i];
        FreeOne(i);
        if !e.hasNext {
          break;
        }
        i, n := e.next, n + 1;
      }
    }
  }

  /** Freeing the chain that was set up in three free descriptors undoes the setting up:
      the same descriptors are free, in no chain, and no other has changed. */
  lemma FreedBack(d: Descs, r: Request)
    requires |d.free| == NUM && |d.desc| == NUM && |d.ops| == NUM && |d.owner| == NUM && CanAlloc(d)
    requires forall x :: 0 <= x < NUM && d.free[x] ==> d.owner[x] == None && d.desc[x] == NODESC
    ensures var (i, j, k) := Three(d.free);
            FreeDesc(FreeDesc(FreeDesc(Formatted(d, i, j, k, r), i), j), k) ==
            d.(ops := d.ops[i := Cmd(r.write, r.sector)])
  {
    hide FirstFree;
    var (i, j, k) := Three(d.free);
    var d' := FreeDesc(FreeDesc(FreeDesc(Formatted(d, i, j, k, r), i), j), k);
    assert d'.free == d.free && d'.owner == d.owner && d'.desc == d.desc;
  }

  /** Marking the first free one makes the next free one first. */
  lemma {:induction false} SkipOne(free: seq<bool>, i: nat, from: nat)
    requires i < |free| && from <= i && FirstFree(free, from) == i
    ensures FirstFree(free[i := false], from) == FirstFree(free, i + 1)
    decreases i - from
  {
    var g := free[i := false];
    if from < i {
      SkipOne(free, i, from + 1);
    } else {
      SameAfter(free, g, i + 1);
    }
  }

  lemma {:induction false} SameAfter(free: seq<bool>, g: seq<bool>, from: nat)
    requires |g| == |free| && from <= |free| && forall j :: from <= j < |free| ==> g[j] == free[j]
    ensures FirstFree(g, from) == FirstFree(free, from)
    decreases |free| - from
  {
    if from < |free| {
      SameAfter(free, g, from + 1);
    }
  }

  lemma SkipTwo(free: seq<bool>, a: nat, b: nat)
    requires a < b < |free| && FirstFree(free, 0) == a && FirstFree(free, a + 1) == b
    ensures FirstFree(free[a := false], b + 1) == FirstFree(free, b + 1)
  {
    SameAfter(free, free[a := false], b + 1);
  }
}
