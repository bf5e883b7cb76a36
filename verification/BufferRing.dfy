/** The buffer cache's list (kernel/bio.c): buffers 0..NBUF-1 and a list head, linked both
    ways by index, most recently released first. */
module BufferRing {

  const NBUF := 30
  const HEAD := NBUF

  datatype Hdr = Hdr(dev: nat, blockno: nat, refcnt: nat, valid: bool)

  // ---- The abstract cache ----

  /** `order` lists the buffers from head.next to head.prev; stamp[b] is when buffer b
      was last put at the front. */
  datatype Cache = Cache(order: seq<nat>, hdr: seq<Hdr>, stamp: seq<nat>, clock: nat)

  ghost predicate Permutation(order: seq<nat>) {
    && |order| == NBUF
    && (forall i :: 0 <= i < |order| ==> order[i] < NBUF)
    && (forall i, j :: 0 <= i < j < |order| ==> order[i] != order[j])
    && (forall b :: 0 <= b < NBUF ==> b in order)
  }

  /** At most one buffer per block of a real device. */
  ghost predicate Unique(hdr: seq<Hdr>) {
    forall i, j :: 0 <= i < j < |hdr| && hdr[i].dev == hdr[j].dev != 0 ==> hdr[i].blockno != hdr[j].blockno
  }

  ghost predicate Ok(c: Cache) {
    && Permutation(c.order) && |c.hdr| == |c.stamp| == NBUF
    && Unique(c.hdr)
    && (forall b :: 0 <= b < NBUF ==> c.stamp[b] < c.clock)
    && (forall i, j :: 0 <= i < j < NBUF ==> c.stamp[c.order[i]] > c.stamp[c.order[j]])
  }

  predicate Caches(h: Hdr, dev: nat, blockno: nat) {
    h.dev == dev && h.blockno == blockno
  }

  ghost predicate Hit(c: Cache, dev: nat, blockno: nat) {
    exists i :: 0 <= i < |c.hdr| && Caches(c.hdr[i], dev, blockno)
  }

  /** What bget may return and leave behind. */
  ghost predicate Gets(c: Cache, dev: nat, blockno: nat, b: nat, c': Cache)
    requires Ok(c)
  {
    && b < NBUF
    && if Hit(c, dev, blockno) then
         Caches(c.hdr[b], dev, blockno) && c' == c.(hdr := c.hdr[b := c.hdr[b].(refcnt := c.hdr[b].refcnt + 1)])
       else
         && c.hdr[b].refcnt == 0
         && (forall x :: 0 <= x < NBUF && c.hdr[x].refcnt == 0 ==> c.stamp[b] <= c.stamp[x])
         && c' == c.(hdr := c.hdr[b := Hdr(dev, blockno, 1, false)])
  }

  function Without(order: seq<nat>, b: nat): seq<nat> {
    if order == [] then []
    else if order[0] == b then order[1..]
    else [order[0]] + Without(order[1..], b)
  }

  /** brelse: drop a reference; the last one moves the buffer to the front. */
  function Released(c: Cache, b: nat): Cache
    requires b < |c.hdr| && b < |c.stamp| && c.hdr[b].refcnt > 0
  {
    var h := c.hdr[b := c.hdr[b].(refcnt := c.hdr[b].refcnt - 1)];
    if c.hdr[b].refcnt == 1 then Cache([b] + Without(c.order, b), h, c.stamp[b := c.clock], c.clock + 1)
    else c.(hdr := h)
  }

  lemma {:induction false} WithoutAt(order: seq<nat>, b: nat, p: nat)
    requires p < |order| && order[p] == b && forall i :: 0 <= i < p ==> order[i] != b
    ensures Without(order, b) == order[..p] + order[p + 1..]
  {
    if p > 0 {
      WithoutAt(order[1..], b, p - 1);
    }
  }

  lemma GetsKeepsOk(c: Cache, dev: nat, blockno: nat, b: nat, c': Cache)
    requires Ok(c) && Gets(c, dev, blockno, b, c')
    ensures Ok(c')
  {
    hide Permutation;
  }

  lemma ReleasedKeepsOk(c: Cache, b: nat)
    requires Ok(c) && b < NBUF && c.hdr[b].refcnt > 0
    ensures Ok(Released(c, b))
  {
    if c.hdr[b].refcnt == 1 {
      var p := PositionOf(c, b);
      FrontPermutation(c.order, b, p);
      hide Permutation;
      FrontSorted(c.order, c.stamp, b, p, c.clock);
    } else {
      hide Permutation;
    }
  }

  lemma FrontSorted(order: seq<nat>, stamp: seq<nat>, b: nat, p: nat, clock: nat)
    requires |order| == |stamp| == NBUF && p < NBUF && order[p] == b
    requires forall i :: 0 <= i < NBUF ==> order[i] < NBUF
    requires forall i, j :: 0 <= i < j < NBUF ==> order[i] != order[j] && stamp[order[i]] > stamp[order[j]]
    requires forall x :: 0 <= x < NBUF ==> stamp[x] < clock
    ensures var o, st := [b] + (order[..p] + order[p + 1..]), stamp[b := clock];
            forall i, j :: 0 <= i < j < NBUF ==> o[i] < NBUF && o[j] < NBUF && st[o[i]] > st[o[j]]
  {
    var o := [b] + (order[..p] + order[p + 1..]);
    assert forall i :: 1 <= i < NBUF ==> o[i] == order[if i <= p then i - 1 else i];
  }

  lemma FrontPermutation(order: seq<nat>, b: nat, p: nat)
    requires Permutation(order) && p < NBUF && order[p] == b
    ensures Permutation([b] + (order[..p] + order[p + 1..]))
  {
    var o := [b] + (order[..p] + order[p + 1..]);
    forall x | 0 <= x < NBUF ensures x in o {
      assert x in order;
      var i :| 0 <= i < NBUF && order[i] == x;
      assert o[if i == p then 0 else if i < p then i + 1 else i] == x;
    }
  }

  // ---- Runs ----

  datatype Op = Get(dev: nat, blockno: nat, b: nat) | Release(b: nat) | Pin(b: nat) | Unpin(b: nat) | Load(b: nat)

  ghost predicate Step(c: Cache, op: Op, c': Cache)
    requires Ok(c)
  {
    match op
    case Get(dev, blockno, b) => dev != 0 && Gets(c, dev, blockno, b, c')
    case Release(b) => b < NBUF && c.hdr[b].refcnt > 0 && c' == Released(c, b)
    case Pin(b) => b < NBUF && c' == c.(hdr := c.hdr[b := c.hdr[b].(refcnt := c.hdr[b].refcnt + 1)])
    case Unpin(b) => b < NBUF && c.hdr[b].refcnt > 0
      && c' == c.(hdr := c.hdr[b := c.hdr[b].(refcnt := c.hdr[b].refcnt - 1)])
    case Load(b) => b < NBUF && c' == c.(hdr := c.hdr[b := c.hdr[b].(valid := true)])
  }

  ghost predicate Run(cs: seq<Cache>, ops: seq<Op>) {
    && |cs| == |ops| + 1
    && forall i :: 0 <= i < |ops| ==> Ok(cs[i]) ==> Step(cs[i], ops[i], cs[i + 1])
  }

  lemma StepKeepsOk(c: Cache, op: Op, c': Cache)
    requires Ok(c) && Step(c, op, c')
    ensures Ok(c')
  {
    match op
    case Get(dev, blockno, b) => GetsKeepsOk(c, dev, blockno, b, c');
    case Release(b) => ReleasedKeepsOk(c, b);
    case _ => hide Permutation;
  }

  /** Along every run the list stays a permutation ordered by last release, and no block
      is cached twice. */
  lemma {:induction false} RunKeepsOk(cs: seq<Cache>, ops: seq<Op>, n: nat)
    requires Run(cs, ops) && Ok(cs[0]) && n <= |ops|
    ensures Ok(cs[n])
  {
    if n > 0 {
      RunKeepsOk(cs, ops, n - 1);
      StepKeepsOk(cs[n - 1], ops[n - 1], cs[n]);
    }
  }

  /** After a get, the returned buffer is the only one for its block. */
  lemma GetIsOnlyOne(c: Cache, dev: nat, blockno: nat, b: nat, c': Cache)
    requires Ok(c) && dev != 0 && Gets(c, dev, blockno, b, c')
    ensures Ok(c') && Caches(c'.hdr[b], dev, blockno) && c'.hdr[b].refcnt > 0
    ensures forall x :: 0 <= x < NBUF && Caches(c'.hdr[x], dev, blockno) ==> x == b
  {
    GetsKeepsOk(c, dev, blockno, b, c');
    forall x | 0 <= x < NBUF && Caches(c'.hdr[x], dev, blockno) ensures x == b {
      assert c'.hdr[x].dev == c'.hdr[b].dev;
    }
  }

  // ---- The linked list ----

  function Succ(n: nat, i: nat): nat {
    if i + 1 == n then 0 else i + 1
  }

  /** next and prev link the nodes of `ring` into a circle. */
  ghost predicate Linked(next: seq<nat>, prev: seq<nat>, ring: seq<nat>) {
    && |next| == |prev| == NBUF + 1
    && (forall i :: 0 <= i < |ring| ==> ring[i] <= NBUF)
    && (forall i, j :: 0 <= i < j < |ring| ==> ring[i] != ring[j])
    && (forall i :: 0 <= i < |ring| ==> next[ring[i]] == ring[Succ(|ring|, i)])
    && (forall i :: 0 <= i < |ring| ==> prev[ring[Succ(|ring|, i)]] == ring[i])
  }

  /** Unlinking the node at position p closes the circle around the rest. */
  lemma Unlinked(next: seq<nat>, prev: seq<nat>, ring: seq<nat>, p: nat)
    requires Linked(next, prev, ring) && 1 <= p < |ring|
    ensures var b := ring[p];
            && next[b] <= NBUF && prev[b] <= NBUF && next[b] != b && prev[b] != b
            && Linked(next[prev[b] := next[b]], prev[next[b] := prev[b]], ring[..p] + ring[p + 1..])
  {
    var n, b := |ring|, ring[p];
    var q := Succ(n, p);
    assert next[ring[p]] == ring[q] && prev[ring[Succ(n, p - 1)]] == ring[p - 1];
    assert Succ(n, p - 1) == p && q != p;
    var r := ring[..p] + ring[p + 1..];
    var next', prev' := next[ring[p - 1] := ring[q]], prev[ring[q] := ring[p - 1]];
    forall i | 0 <= i < |r|
      ensures next'[r[i]] == r[Succ(|r|, i)] && prev'[r[Succ(|r|, i)]] == r[i]
    {
      UnlinkedAt(next, prev, ring, p, i);
    }
  }

  lemma UnlinkedAt(next: seq<nat>, prev: seq<nat>, ring: seq<nat>, p: nat, i: nat)
    requires Linked(next, prev, ring) && 1 <= p < |ring| && i < |ring| - 1
    ensures var r, q := ring[..p] + ring[p + 1..], Succ(|ring|, p);
            var next', prev' := next[ring[p - 1] := ring[q]], prev[ring[q] := ring[p - 1]];
            next'[r[i]] == r[Succ(|r|, i)] && prev'[r[Succ(|r|, i)]] == r[i]
  {
    var n := |ring|;
    var r, q, k := ring[..p] + ring[p + 1..], Succ(n, p), if i < p then i else i + 1;
    assert r[i] == ring[k] && next[ring[k]] == ring[Succ(n, k)] && prev[ring[Succ(n, k)]] == ring[k];
    if k == p - 1 {
      assert r[Succ(|r|, i)] == ring[q];
    } else {
      assert r[Succ(|r|, i)] == ring[Succ(n, k)] && Succ(n, k) != q;
    }
  }

  /** Linking a new node between the head and the first node. */
  lemma LinkedFront(next: seq<nat>, prev: seq<nat>, ring: seq<nat>, b: nat)
    requires Linked(next, prev, ring) && 1 <= |ring| && ring[0] == HEAD && b < NBUF && b !in ring
    ensures next[HEAD] <= NBUF
    ensures Linked(next[b := next[HEAD]][HEAD := b], prev[b := HEAD][next[HEAD] := b], [HEAD, b] + ring[1..])
  {
    var n := |ring|;
    assert next[HEAD] == ring[Succ(n, 0)];
    var r := [HEAD, b] + ring[1..];
    var next', prev' := next[b := next[HEAD]][HEAD := b], prev[b := HEAD][next[HEAD] := b];
    forall i | 0 <= i < |r|
      ensures next'[r[i]] == r[Succ(|r|, i)] && prev'[r[Succ(|r|, i)]] == r[i]
    {
      if i >= 2 {
        assert next[ring[i - 1]] == ring[Succ(n, i - 1)] && prev[ring[Succ(n, i - 1)]] == ring[i - 1];
      }
    }
  }

  /** binit leaves the last buffer first, and no two buffers for one block. */
  lemma FirstOrder(order: seq<nat>, hdr: seq<Hdr>)
    requires |order| == NBUF && (forall i :: 0 <= i < NBUF ==> order[i] == NBUF - 1 - i)
    requires |hdr| == NBUF && forall b :: 0 <= b < NBUF ==> hdr[b] == Hdr(0, 0, 0, false)
    ensures Ok(Cache(order, hdr, seq(NBUF, i => i), NBUF))
  {
    forall x | 0 <= x < NBUF ensures x in order {
      assert order[NBUF - 1 - x] == x;
    }
  }

  class BufferCache {
    var next: seq<nat>
    var prev: seq<nat>
    var hdr: seq<Hdr>
    ghost var c: Cache

    ghost predicate Valid()
      reads this
    {
      Ok(c) && hdr == c.hdr && Linked(next, prev, [HEAD] + c.order)
    }

    /** binit: each buffer in turn is put at the front. */
    constructor ()
      ensures Valid() && forall b :: 0 <= b < NBUF ==> hdr[b] == Hdr(0, 0, 0, false)
    {
      hide Ok;
      hdr := seq(NBUF, i => Hdr(0, 0, 0, false));
      next, prev := seq(NBUF + 1, i => HEAD), seq(NBUF + 1, i => HEAD);
      c := Cache([], [], [], 0);
      new;
      ghost var order: seq<nat> := [];
      var b := 0;
      assert [HEAD] + order == [HEAD];
      while b < NBUF
        modifies this`next, this`prev
        invariant 0 <= b <= NBUF && |order| == b
        invariant forall i :: 0 <= i < b ==> order[i] == b - 1 - i
        invariant Linked(next, prev, [HEAD] + order)
      {
        LinkFront(b, [HEAD] + order);
        assert [HEAD, b] + ([HEAD] + order)[1..] == [HEAD] + ([b] + order);
        order := [b] + order;
        b := b + 1;
      }
      c := Cache(order, hdr, seq(NBUF, i => i), NBUF);
      FirstOrder(order, hdr);
    }

    /** bget's first loop: from the front, towards older buffers. */
    method FindCached(dev: nat, blockno: nat) returns (b: nat)
      requires Valid()
      ensures b == HEAD <==> !Hit(c, dev, blockno)
      ensures b != HEAD ==> b < NBUF && Caches(hdr[b], dev, blockno)
    {
      hide Ok;
      ghost var ring := [HEAD] + c.order;
      InRing(c);
      ghost var i := 1;
      b := next[HEAD];
      assert next[ring[0]] == ring[Succ(|ring|, 0)];
      while b != HEAD
        invariant 1 <= i <= |ring| && (if i == |ring| then b == HEAD else b == ring[i] < NBUF)
        invariant forall k :: 1 <= k < i ==> !Caches(hdr[ring[k]], dev, blockno)
        decreases |ring| - i
      {
        if hdr[b].dev == dev && hdr[b].blockno == blockno {
          return;
        }
        assert next[ring[i]] == ring[Succ(|ring|, i)];
        b := next[b];
        i := i + 1;
      }
      MissedAll(c, hdr, dev, blockno);
    }

    /** bget's second loop: from the tail, towards newer buffers. */
    method FindFree() returns (b: nat)
      requires Valid()
      ensures b == HEAD <==> forall x :: 0 <= x < NBUF ==> hdr[x].refcnt != 0
      ensures b != HEAD ==> b < NBUF && hdr[b].refcnt == 0
      ensures b != HEAD ==> forall x :: 0 <= x < NBUF && hdr[x].refcnt == 0 ==> c.stamp[b] <= c.stamp[x]
    {
      ghost var ring := [HEAD] + c.order;
      InRing(c);
      ghost var i := |ring| - 1;
      b := prev[HEAD];
      assert prev[ring[Succ(|ring|, |ring| - 1)]] == ring[|ring| - 1];
      while b != HEAD
        invariant 0 <= i < |ring| && b == ring[i] && (i > 0 ==> b < NBUF)
        invariant forall k :: i < k < |ring| ==> hdr[ring[k]].refcnt != 0
        decreases i
      {
        assert b == c.order[i - 1];
        if hdr[b].refcnt == 0 {
          LastFree(c, i - 1);
          return;
        }
        assert prev[ring[Succ(|ring|, i - 1)]] == ring[i - 1];
        b := prev[b];
        i := i - 1;
      }
      NoneFree(c);
    }

    /** bget: a hit takes a reference; a miss recycles the least recently released buffer
        nobody references. */
    method Bget(dev: nat, blockno: nat) returns (b: nat)
      requires Valid()
      requires Hit(c, dev, blockno) || exists x :: 0 <= x < NBUF && hdr[x].refcnt == 0  // panic "no buffers"
      modifies this`hdr, this`c
      ensures Valid() && Gets(old(c), dev, blockno, b, c)
    {
      hide Linked;
      ghost var c0 := c;
      b := FindCached(dev, blockno);
      if b != HEAD {
        hdr := hdr[b := hdr[b].(refcnt := hdr[b].refcnt + 1)];
      } else {
        b := FindFree();
        hdr := hdr[b := Hdr(dev, blockno, 1, false)];
      }
      c := c.(hdr := hdr);
      GetsKeepsOk(c0, dev, blockno, b, c);
    }

    /** brelse, after the sleep-lock is released. */
    method Brelse(b: nat)
      requires Valid() && b < NBUF && hdr[b].refcnt > 0
      modifies this
      ensures Valid() && c == Released(old(c), b)
    {
      hide Linked, Ok;
      ghost var c0 := c;
      InRing(c);
      ReleasedKeepsOk(c, b);
      hdr := hdr[b := hdr[b].(refcnt := hdr[b].refcnt - 1)];
      if hdr[b].refcnt == 0 {
        MoveToFront(b);
      }
      c := Released(c0, b);
    }

    /** The first two pointer writes of brelse. */
    method Unlink(b: nat, ghost ring: seq<nat>, ghost p: nat)
      requires Linked(next, prev, ring) && 1 <= p < |ring| && ring[p] == b
      modifies this`next, this`prev
      ensures Linked(next, prev, ring[..p] + ring[p + 1..])
    {
      LinkedSizes(next, prev, ring, p);
      hide Linked;
      Unlinked(next, prev, ring, p);
      ghost var next1, prev1 := next[prev[b] := next[b]], prev[next[b] := prev[b]];
      prev := prev[next[b] := prev[b]];
      next := next[prev[b] := next[b]];
      assert next == next1 && prev == prev1;
    }

    /** The last four, also the body of binit's loop. */
    method LinkFront(b: nat, ghost ring: seq<nat>)
      requires Linked(next, prev, ring) && 1 <= |ring| && ring[0] == HEAD && b < NBUF && b !in ring
      modifies this`next, this`prev
      ensures Linked(next, prev, [HEAD, b] + ring[1..])
    {
      LinkedSizes(next, prev, ring, 0);
      hide Linked;
      LinkedFront(next, prev, ring, b);
      next := next[b := next[HEAD]];
      prev := prev[b := HEAD];
      prev := prev[next[HEAD] := b];
      next := next[HEAD := b];
    }

    method MoveToFront(b: nat)
      requires Ok(c) && Linked(next, prev, [HEAD] + c.order) && b < NBUF
      modifies this`next, this`prev
      ensures Linked(next, prev, [HEAD] + ([b] + Without(c.order, b)))
    {
      hide Linked, Ok, Without;
      ghost var p := PositionOf(c, b);
      ghost var ring := [HEAD] + c.order;
      RestOfRing(c, b, p);
      Unlink(b, ring, p + 1);
      ghost var rest := ring[..p + 1] + ring[p + 2..];
      LinkFront(b, rest);
      assert [HEAD, b] + rest[1..] == [HEAD] + ([b] + Without(c.order, b));
    }

    method Bpin(b: nat)
      requires Valid() && b < NBUF
      modifies this`hdr, this`c
      ensures Valid() && Step(old(c), Pin(b), c)
    {
      ghost var c0 := c;
      hdr := hdr[b := hdr[b].(refcnt := hdr[b].refcnt + 1)];
      c := c.(hdr := hdr);
      StepKeepsOk(c0, Pin(b), c);
    }

    /** bunpin drops a reference but, unlike brelse, never moves the buffer. */
    method Bunpin(b: nat)
      requires Valid() && b < NBUF && hdr[b].refcnt > 0
      modifies this`hdr, this`c
      ensures Valid() && Step(old(c), Unpin(b), c)
    {
      ghost var c0 := c;
      hdr := hdr[b := hdr[b].(refcnt := hdr[b].refcnt - 1)];
      c := c.(hdr := hdr);
      StepKeepsOk(c0, Unpin(b), c);
    }
  }

  lemma LinkedSizes(next: seq<nat>, prev: seq<nat>, ring: seq<nat>, p: nat)
    requires Linked(next, prev, ring) && p < |ring|
    ensures |next| == |prev| == NBUF + 1 && ring[p] <= NBUF
  {
  }

  lemma InRing(c: Cache)
    requires Ok(c)
    ensures |c.order| == |c.hdr| == |c.stamp| == NBUF && forall k :: 1 <= k <= NBUF ==> ([HEAD] + c.order)[k] < NBUF
  {
  }

  lemma PositionOf(c: Cache, b: nat) returns (p: nat)
    requires Ok(c) && b < NBUF
    ensures |c.order| == NBUF && p < NBUF && c.order[p] == b
    ensures Without(c.order, b) == c.order[..p] + c.order[p + 1..]
  {
    assert b in c.order;
    p :| 0 <= p < NBUF && c.order[p] == b;
    WithoutAt(c.order, b, p);
  }

  lemma RestOfRing(c: Cache, b: nat, p: nat)
    requires Ok(c) && b < NBUF && p < NBUF && c.order[p] == b && Without(c.order, b) == c.order[..p] + c.order[p + 1..]
    ensures var ring := [HEAD] + c.order; var rest := ring[..p + 1] + ring[p + 2..];
            ring[p + 1] == b && rest[0] == HEAD && b !in rest && rest == [HEAD] + Without(c.order, b)
  {
  }

  lemma MissedAll(c: Cache, hdr: seq<Hdr>, dev: nat, blockno: nat)
    requires Ok(c) && hdr == c.hdr
    requires forall k :: 1 <= k <= NBUF ==> !Caches(hdr[([HEAD] + c.order)[k]], dev, blockno)
    ensures !Hit(c, dev, blockno)
  {
    forall x | 0 <= x < NBUF ensures !Caches(hdr[x], dev, blockno) {
      assert x in c.order;
      var k :| 0 <= k < NBUF && c.order[k] == x;
      assert ([HEAD] + c.order)[k + 1] == x;
    }
  }

  lemma LastFree(c: Cache, p: nat)
    requires Ok(c) && p < NBUF
    requires forall k :: p + 1 < k <= NBUF ==> c.hdr[([HEAD] + c.order)[k]].refcnt != 0
    ensures forall x :: 0 <= x < NBUF && c.hdr[x].refcnt == 0 ==> c.stamp[c.order[p]] <= c.stamp[x]
  {
    forall x | 0 <= x < NBUF && c.hdr[x].refcnt == 0 ensures c.stamp[c.order[p]] <= c.stamp[x] {
      assert x in c.order;
      var k :| 0 <= k < NBUF && c.order[k] == x;
      assert ([HEAD] + c.order)[k + 1] == x;
    }
  }

  lemma NoneFree(c: Cache)
    requires Ok(c) && forall k :: 0 < k <= NBUF ==> c.hdr[([HEAD] + c.order)[k]].refcnt != 0
    ensures forall x :: 0 <= x < NBUF ==> c.hdr[x].refcnt != 0
  {
    forall x | 0 <= x < NBUF ensures c.hdr[x].refcnt != 0 {
      assert x in c.order;
      var k :| 0 <= k < NBUF && c.order[k] == x;
      assert ([HEAD] + c.order)[k + 1] == x;
    }
  }
}
