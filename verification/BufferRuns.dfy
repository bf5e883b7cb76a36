/** The order of the buffer cache's list, from the calls of a run alone: how often each
    buffer was taken and given back, and when it was last free (kernel/bio.c:36-151). */
module BufferRuns {
  import opened BufferRing

  /** References to b: gets and pins, less releases and unpins. */
  function Refs(ops: seq<Op>, b: nat): int {
    if ops == [] then 0
    else
      var n := |ops| - 1;
      Refs(ops[..n], b) +
      match ops[n]
      case Get(_, _, x) => if x == b then 1 else 0
      case Pin(x) => if x == b then 1 else 0
      case Release(x) => if x == b then -1 else 0
      case Unpin(x) => if x == b then -1 else 0
      case Load(_) => 0
  }

  /** The number of the call that last released b for good, or 0. */
  function FreedAt(ops: seq<Op>, b: nat): nat {
    if ops == [] then 0
    else
      var n := |ops| - 1;
      if ops[n] == Release(b) && Refs(ops, b) == 0 then n + 1 else FreedAt(ops[..n], b)
  }

  /** x was free longer ago than y; buffers never used count as used in the order binit
      put them in. */
  predicate Older(ops: seq<Op>, x: nat, y: nat) {
    FreedAt(ops, x) < FreedAt(ops, y) || (FreedAt(ops, x) == FreedAt(ops, y) && x < y)
  }

  lemma {:induction false} FreedBefore(ops: seq<Op>, b: nat)
    ensures FreedAt(ops, b) <= |ops|
  {
    if ops != [] {
      FreedBefore(ops[..|ops| - 1], b);
    }
  }

  /** The cache that binit makes. */
  ghost function First(): Cache {
    Cache(seq(NBUF, i requires 0 <= i < NBUF => NBUF - 1 - i), seq(NBUF, i => Hdr(0, 0, 0, false)),
          seq(NBUF, i => i), NBUF)
  }

  lemma FirstOk()
    ensures Ok(First())
  {
    FirstOrder(First().order, First().hdr);
  }

  /** Reference counts and the order of stamps are what the calls say. */
  ghost predicate Agrees(c: Cache, ops: seq<Op>) {
    && |c.hdr| == |c.stamp| == NBUF
    && (forall b :: 0 <= b < NBUF ==> c.hdr[b].refcnt == Refs(ops, b))
    && (forall x, y :: 0 <= x < NBUF && 0 <= y < NBUF && x != y ==> (c.stamp[x] < c.stamp[y] <==> Older(ops, x, y)))
  }

  lemma AgreesStep(c: Cache, ops: seq<Op>, op: Op, c': Cache)
    requires Ok(c) && Agrees(c, ops) && Step(c, op, c')
    ensures Agrees(c', ops + [op])
  {
    hide Permutation, Unique;
    var more := ops + [op];
    assert more[..|ops|] == ops;
    forall b | 0 <= b < NBUF ensures c'.hdr[b].refcnt == Refs(more, b) {
    }
    forall x, y | 0 <= x < NBUF && 0 <= y < NBUF && x != y ensures c'.stamp[x] < c'.stamp[y] <==> Older(more, x, y) {
      FreedBefore(ops, x);
      FreedBefore(ops, y);
      assert c.stamp[x] < c.stamp[y] <==> Older(ops, x, y);
    }
  }

  lemma {:induction false} RunAgrees(cs: seq<Cache>, ops: seq<Op>, n: nat)
    requires Run(cs, ops) && cs[0] == First() && n <= |ops|
    ensures Ok(cs[n]) && Agrees(cs[n], ops[..n])
  {
    hide Ok, Step;
    if n == 0 {
      FirstOk();
    } else {
      RunAgrees(cs, ops, n - 1);
      StepKeepsOk(cs[n - 1], ops[n - 1], cs[n]);
      AgreesStep(cs[n - 1], ops[..n - 1], ops[n - 1], cs[n]);
      assert ops[..n] == ops[..n - 1] + [ops[n - 1]];
    }
  }

  /** After any calls the list goes from the buffer freed last to the one freed first. */
  lemma OrderedByRelease(cs: seq<Cache>, ops: seq<Op>, n: nat, i: nat, j: nat)
    requires Run(cs, ops) && cs[0] == First() && n <= |ops| && i < j < NBUF
    ensures |cs[n].order| == NBUF && Older(ops[..n], cs[n].order[j], cs[n].order[i])
  {
    RunAgrees(cs, ops, n);
    assert cs[n].stamp[cs[n].order[i]] > cs[n].stamp[cs[n].order[j]];
  }

  /** A miss recycles the buffer that has been free longest, among those without
      references. */
  lemma RecyclesOldest(cs: seq<Cache>, ops: seq<Op>, n: nat, x: nat)
    requires Run(cs, ops) && cs[0] == First() && n < |ops| && ops[n].Get?
    requires !Hit(cs[n], ops[n].dev, ops[n].blockno)
    ensures ops[n].b < NBUF && Refs(ops[..n], ops[n].b) == 0
    ensures x < NBUF && Refs(ops[..n], x) == 0 && x != ops[n].b ==> Older(ops[..n], ops[n].b, x)
  {
    hide Permutation, Unique, Older, Refs;
    RunAgrees(cs, ops, n);
    assert Step(cs[n], ops[n], cs[n + 1]);
    if x < NBUF && Refs(ops[..n], x) == 0 && x != ops[n].b {
      Different(cs[n], x, ops[n].b);
    }
  }

  lemma Different(c: Cache, x: nat, y: nat)
    requires Ok(c) && x < NBUF && y < NBUF && x != y
    ensures c.stamp[x] != c.stamp[y]
  {
    assert x in c.order && y in c.order;
  }
}
