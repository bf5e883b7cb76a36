/** A process's memory as bytes at virtual addresses, and what copies through its page
    table do to it (kernel/vm.c:105-123, 350-398). */
module UserBytes {
  import opened Common
  import opened PageTables
  import opened MemChanges

  predicate UserMapped(m: Mem, r: nat, v: nat) {
    v < MAXVPN && Valid(Entry(m, r, v)) && UserBit(Entry(m, r, v))
  }

  /** The byte table r lets the user see at va. */
  function UserByte(m: Mem, r: nat, va: nat): Option<Byte> {
    var v := va / PGSIZE;
    if UserMapped(m, r, v) && IsBytes(m, Ppn(Entry(m, r, v))) then
      Some(m.pages[Ppn(Entry(m, r, v))].data[va % PGSIZE]) else None
  }

  lemma UserPage(m: Mem, r: nat, v: nat)
    requires Span(m) && Own(m) && IsRoot(m, r) && UserMapped(m, r, v)
    ensures v < USERTOP && IsBytes(m, Ppn(Entry(m, r, v))) && Ppn(Entry(m, r, v)) != 0
    ensures Ppn(Entry(m, r, v)) in m.role && m.role[Ppn(Entry(m, r, v))] == Leaf(r, v)
  {
    assert EntryOk(m, r, v);
    assert LeafOk(m, Ppn(Entry(m, r, v)));
  }

  /** memmove into a page. */
  function Splice(d: seq<Byte>, off: nat, s: seq<Byte>): seq<Byte>
    requires off + |s| <= |d|
  {
    d[..off] + s + d[off + |s|..]
  }

  lemma SpliceAt(d: seq<Byte>, off: nat, s: seq<Byte>, i: nat)
    requires off + |s| <= |d| && i < |d|
    ensures |Splice(d, off, s)| == |d| && Splice(d, off, s)[i] == if off <= i < off + |s| then s[i - off] else d[i]
  {
  }

  /** m' is m with the bytes s written to user page v of table r from offset off. */
  function Wrote(m: Mem, r: nat, v: nat, off: nat, s: seq<Byte>): Mem
    requires IsBytes(m, Ppn(Entry(m, r, v))) && off + |s| <= PGSIZE
  {
    var p := Ppn(Entry(m, r, v));
    Mem(m.lo, m.hi, m.pages[p := Bytes(Splice(m.pages[p].data, off, s))], m.role)
  }

  /** Bytes s are at va in table r's memory; all other user bytes and all other pages
      are as before. */
  ghost predicate Copied(m: Mem, m': Mem, r: nat, va: nat, s: seq<Byte>) {
    && m'.lo == m.lo && m'.hi == m.hi && m'.role == m.role && m'.pages.Keys == m.pages.Keys && SameMaps(m, m')
    && (forall k, a :: IsRoot(m, k) && 0 <= a ==>
       UserByte(m', k, a) == if k == r && va <= a < va + |s| then Some(s[a - va]) else UserByte(m, k, a))
    && (forall q :: q in m.role && q in m.pages && !(m.role[q].Leaf? && m.role[q].root == r) ==>
       m'.pages[q] == m.pages[q])
  }

  lemma NoneCopied(m: Mem, r: nat, va: nat)
    ensures Copied(m, m, r, va, [])
  {
  }

  /** One memmove of copyout. */
  lemma WroteOk(m: Mem, r: nat, v: nat, off: nat, s: seq<Byte>, head: nat, free: seq<nat>)
    requires Span(m) && Chain(m, head, free) && Tree(m) && Own(m) && IsRoot(m, r) && UserMapped(m, r, v)
    requires off + |s| <= PGSIZE
    requires IsBytes(m, Ppn(Entry(m, r, v)))
    ensures var m' := Wrote(m, r, v, off, s);
            Span(m') && Chain(m', head, free) && Tree(m') && Own(m') && SameMaps(m, m')
  {
    hide Tree, Span, Chain, Entry, Splice, UserMapped;
    UserPage(m, r, v);
    var m' := Wrote(m, r, v, off, s);
    var p := Ppn(Entry(m, r, v));
    assert SameNodes(m, m');
    SameNodesTree(m, m');
    ChainKept(m, m', head, free);
    SpliceLength(m.pages[p].data, off, s);
    assert IsBytes(m', p);
    forall q | q in m'.role ensures LeafOk(m', q) {
      assert LeafOk(m, q);
    }
    forall k, u | IsRoot(m', k) && 0 <= u < MAXVPN ensures EntryOk(m', k, u) {
      assert EntryOk(m, k, u);
    }
  }

  lemma SpliceLength(d: seq<Byte>, off: nat, s: seq<Byte>)
    requires off + |s| <= |d|
    ensures |Splice(d, off, s)| == |d|
  {
  }

  lemma WroteByte(m: Mem, r: nat, v: nat, off: nat, s: seq<Byte>, k: nat, a: nat)
    requires Span(m) && Own(m) && IsRoot(m, r) && UserMapped(m, r, v) && off + |s| <= PGSIZE
    requires IsBytes(m, Ppn(Entry(m, r, v)))
    requires IsRoot(m, k) && SameMaps(m, Wrote(m, r, v, off, s))
    ensures var va := v * PGSIZE + off;
            UserByte(Wrote(m, r, v, off, s), k, a) == if k == r && va <= a < va + |s| then Some(s[a - va])
              else UserByte(m, k, a)
  {
    hide Tree, Span, Chain, Entry, Splice, Own, Ppn, Valid, UserBit;
    var m' := Wrote(m, r, v, off, s);
    var p, u := Ppn(Entry(m, r, v)), a / PGSIZE;
    SpliceLength(m.pages[p].data, off, s);
    assert a == u * PGSIZE + a % PGSIZE;
    if UserMapped(m, k, u) {
      UserPage(m, k, u);
      UserPage(m, r, v);
      var q := Ppn(Entry(m, k, u));
      assert Entry(m', k, u) == Entry(m, k, u);
      if q == p {
        SpliceAt(m.pages[p].data, off, s, a % PGSIZE);
      }
    } else {
      assert k == r ==> u != v;
    }
  }

  lemma CopiedMore(m: Mem, m1: Mem, r: nat, va: nat, s: seq<Byte>, v: nat, off: nat, t: seq<Byte>)
    requires Copied(m, m1, r, va, s) && va + |s| == v * PGSIZE + off && IsRoot(m1, r)
    requires Span(m1) && Own(m1) && UserMapped(m1, r, v) && off + |t| <= PGSIZE && IsBytes(m1, Ppn(Entry(m1, r, v)))
    requires SameMaps(m1, Wrote(m1, r, v, off, t))
    ensures Copied(m, Wrote(m1, r, v, off, t), r, va, s + t)
  {
    hide Tree, Span, Chain, Entry, Splice, Own, UserByte, UserMapped;
    var m2 := Wrote(m1, r, v, off, t);
    MapsTrans(m, m1, m2);
    UserPage(m1, r, v);
    forall k, a | IsRoot(m, k) && 0 <= a
      ensures UserByte(m2, k, a) == if k == r && va <= a < va + |s + t| then Some((s + t)[a - va])
              else UserByte(m, k, a)
    {
      WroteByte(m1, r, v, off, t, k, a);
    }
  }

  /** The user can reach every page the range touches. */
  ghost predicate AllMapped(m: Mem, r: nat, va: nat, len: nat) {
    forall a :: va <= a < va + len ==> UserMapped(m, r, a / PGSIZE)
  }

  lemma MappedChunk(m: Mem, r: nat, va: nat, n: nat)
    requires UserMapped(m, r, va / PGSIZE) && n <= PGSIZE - va % PGSIZE
    ensures AllMapped(m, r, va, n)
  {
    forall a | va <= a < va + n ensures UserMapped(m, r, a / PGSIZE) {
      assert a / PGSIZE == va / PGSIZE;
    }
  }

  lemma MappedJoin(m: Mem, r: nat, va: nat, i: nat, n: nat)
    requires AllMapped(m, r, va, i) && AllMapped(m, r, va + i, n)
    ensures AllMapped(m, r, va, i + n)
  {
  }

  lemma NotAllMapped(m: Mem, r: nat, va: nat, i: nat, len: nat)
    requires i < len && !UserMapped(m, r, (va + i) / PGSIZE)
    ensures !AllMapped(m, r, va, len)
  {
    var a := va + i;
    assert va <= a < va + len;
  }

  lemma SameMapped(m: Mem, m': Mem, r: nat, v: nat)
    requires SameMaps(m, m') && IsRoot(m, r)
    ensures UserMapped(m', r, v) == UserMapped(m, r, v)
  {
    hide Entry;
  }

  // ---- copyin ----

  /** d is what table r's memory holds from va on. */
  ghost predicate Reads(m: Mem, r: nat, va: nat, d: seq<Byte>) {
    forall i :: 0 <= i < |d| ==> UserByte(m, r, va + i) == Some(d[i])
  }

  lemma ReadChunk(m: Mem, r: nat, va: nat, n: nat)
    requires Span(m) && Own(m) && IsRoot(m, r) && UserMapped(m, r, va / PGSIZE) && n <= PGSIZE - va % PGSIZE
    ensures IsBytes(m, Ppn(Entry(m, r, va / PGSIZE)))
    ensures var off := va % PGSIZE; Reads(m, r, va, m.pages[Ppn(Entry(m, r, va / PGSIZE))].data[off..off + n])
  {
    hide Entry, Span, Own, UserMapped, Ppn;
    UserPage(m, r, va / PGSIZE);
    var off, d := va % PGSIZE, m.pages[Ppn(Entry(m, r, va / PGSIZE))].data;
    var e := d[off..off + n];
    forall i | 0 <= i < |e| ensures UserByte(m, r, va + i) == Some(e[i]) {
      assert (va + i) / PGSIZE == va / PGSIZE && (va + i) % PGSIZE == off + i;
    }
  }

  lemma ReadJoin(m: Mem, r: nat, va: nat, d: seq<Byte>, e: seq<Byte>)
    requires Reads(m, r, va, d) && Reads(m, r, va + |d|, e)
    ensures Reads(m, r, va, d + e)
  {
    hide UserByte;
    forall i | 0 <= i < |d + e| ensures UserByte(m, r, va + i) == Some((d + e)[i]) {
      if i >= |d| {
        assert UserByte(m, r, va + |d| + (i - |d|)) == Some(e[i - |d|]);
      }
    }
  }

  // ---- Small facts ----

  lemma Unmapped(m: Mem, r: nat, v: nat)
    requires v >= MAXVPN || !HasTable(m, r, v)
    ensures !UserMapped(m, r, v)
  {
    assert !Valid(0);
  }

  lemma MappedIff(m: Mem, r: nat, v: nat)
    requires v < MAXVPN && Span(m) && Own(m) && IsRoot(m, r)
    ensures UserMapped(m, r, v) <==> Valid(Entry(m, r, v)) && UserBit(Entry(m, r, v))
    ensures UserMapped(m, r, v) ==> Ppn(Entry(m, r, v)) != 0
  {
    hide Entry, Span, Own;
    if UserMapped(m, r, v) {
      UserPage(m, r, v);
    }
  }

  lemma NoneMappedYet(m: Mem, r: nat, va: nat)
    ensures AllMapped(m, r, va, 0)
  {
  }

  lemma NoneRead(m: Mem, r: nat, va: nat)
    ensures Reads(m, r, va, [])
  {
  }

  lemma CopiedSame(m: Mem, m1: Mem, r: nat, va: nat, s: seq<Byte>, v: nat)
    requires Copied(m, m1, r, va, s) && IsRoot(m1, r)
    ensures UserMapped(m1, r, v) == UserMapped(m, r, v) && IsRoot(m, r)
  {
    hide Entry, UserByte, UserMapped;
    SameMapped(m, m1, r, v);
  }

  /** The next k bytes of src go out. */
  lemma CopyStep(m: Mem, m1: Mem, r: nat, dstva: nat, src: seq<Byte>, n: nat, k: nat, head: nat, free: seq<nat>)
    requires n + k <= |src| && k <= PGSIZE - (dstva + n) % PGSIZE
    requires Span(m1) && Chain(m1, head, free) && Tree(m1) && Own(m1) && IsRoot(m1, r)
    requires UserMapped(m1, r, (dstva + n) / PGSIZE)
    requires Copied(m, m1, r, dstva, src[..n])
    ensures var p, off := Ppn(Entry(m1, r, (dstva + n) / PGSIZE)), (dstva + n) % PGSIZE;
            && p in m1.pages && m1.pages[p].Bytes? && |m1.pages[p].data| == PGSIZE
            && var m2 := Mem(m1.lo, m1.hi, m1.pages[p := Bytes(Splice(m1.pages[p].data, off, src[n..][..k]))], m1.role);
               && Span(m2) && Chain(m2, head, free) && Tree(m2) && Own(m2) && IsRoot(m2, r)
               && Copied(m, m2, r, dstva, src[..n + k])
  {
    hide Span, Chain, Tree, Own, UserMapped, Copied, Splice, Entry;
    var va := dstva + n;
    var v, off, t := va / PGSIZE, va % PGSIZE, src[n..][..k];
    UserPage(m1, r, v);
    WroteOk(m1, r, v, off, t, head, free);
    CopiedMore(m, m1, r, dstva, src[..n], v, off, t);
    assert src[..n] + t == src[..n + k];
  }
}
