/** Making and freeing whole tables (kernel/vm.c:193-202, 271-299): which nodes lie below
    a node, and what remains of memory when all of them are gone. */
module TableLife {
  import opened Common
  import opened PageTables
  import opened MemChanges

  // ---- Nodes below a node ----

  function Anc(pre: nat, k: nat): nat
    requires k <= 2
  {
    if k == 0 then pre else if k == 1 then pre / 512 else pre / 0x4_0000
  }

  lemma AncStep(pre: nat, k: nat)
    requires k <= 1
    ensures Anc(pre, k + 1) == Anc(pre, k) / NPTE && Anc(pre, k + 1) == Anc(pre / NPTE, k)
  {
  }

  /** Role n is that of the node (l, pre) of table r, or of one below it. */
  predicate Under(n: Role, r: nat, l: nat, pre: nat)
    requires l <= 2
  {
    n.Node? && n.root == r && n.level <= l && Anc(n.pre, l - n.level) == pre
  }

  /** ... of one below its first i entries. */
  predicate UnderFirst(n: Role, r: nat, l: nat, pre: nat, i: nat)
    requires l <= 2
  {
    n.Node? && n.root == r && n.level < l && Anc(n.pre, l - 1 - n.level) / NPTE == pre
      && Anc(n.pre, l - 1 - n.level) % NPTE < i
  }

  lemma UnderStep(n: Role, r: nat, l: nat, pre: nat, i: nat)
    requires l <= 2 && i < NPTE
    ensures UnderFirst(n, r, l, pre, i + 1) <==>
            UnderFirst(n, r, l, pre, i) || (l > 0 && Under(n, r, l - 1, pre * NPTE + i))
    ensures l > 0 && Under(n, r, l - 1, pre * NPTE + i) ==> !UnderFirst(n, r, l, pre, i)
  {
    if n.Node? && n.level < l {
      var a := Anc(n.pre, l - 1 - n.level);
      assert a == (a / NPTE) * NPTE + a % NPTE;
    }
  }

  lemma UnderAll(n: Role, r: nat, l: nat, pre: nat)
    requires l <= 2
    ensures Under(n, r, l, pre) <==>
            UnderFirst(n, r, l, pre, NPTE) || (n.Node? && n.root == r && n.level == l && n.pre == pre)
  {
    if n.Node? && n.level < l {
      AncStep(n.pre, l - 1 - n.level);
    }
  }

  /** Nothing hangs below an invalid entry. */
  lemma {:induction false} NoneUnder(m: Mem, p: nat, r: nat, l: nat, pre: nat, i: nat, q: nat)
    requires Tree(m) && 1 <= l <= 2 && IsNode(m, p, r, l, pre) && IsTable(m, p) && i < NPTE
    requires !Valid(m.pages[p].ptes[i])
    requires q in m.role
    ensures !Under(m.role[q], r, l - 1, pre * NPTE + i)
    decreases if m.role[q].Node? then 3 - m.role[q].level else 0
  {
    var n := m.role[q];
    if Under(n, r, l - 1, pre * NPTE + i) {
      assert UpOk(m, q) && ShapeOk(m, q);
      if n.level == l - 1 {
        NodeUnique(m, p, n.up, r, l, pre);
      } else {
        AncStep(n.pre, l - 2 - n.level);
        NoneUnder(m, p, r, l, pre, i, n.up);
      }
    }
  }

  /** Every PTE in the level-0 nodes below is invalid. */
  ghost predicate NoLeaves(m: Mem, r: nat, l: nat, pre: nat)
    requires l <= 2
  {
    forall q, i :: q in m.role && Under(m.role[q], r, l, pre) && m.role[q].level == 0 && IsTable(m, q)
                   && 0 <= i < NPTE ==>
      !Valid(m.pages[q].ptes[i])
  }

  lemma {:induction false} NoLeavesDown(m: Mem, r: nat, l: nat, pre: nat, i: nat)
    requires 1 <= l <= 2 && NoLeaves(m, r, l, pre) && i < NPTE
    ensures NoLeaves(m, r, l - 1, pre * NPTE + i)
  {
    forall q | q in m.role && Under(m.role[q], r, l - 1, pre * NPTE + i) ensures Under(m.role[q], r, l, pre) {
      UnderStepUp(m.role[q], r, l, pre, i);
    }
  }

  lemma UnderStepUp(n: Role, r: nat, l: nat, pre: nat, i: nat)
    requires 1 <= l <= 2 && i < NPTE && Under(n, r, l - 1, pre * NPTE + i)
    ensures Under(n, r, l, pre)
  {
    AncStep(n.pre, l - 1 - n.level);
  }

  // ---- freewalk's progress ----

  /** The node (l, pre) and all below it are in m as they were in m0. */
  ghost predicate Intact(m0: Mem, m: Mem, r: nat, l: nat, pre: nat)
    requires l <= 2
  {
    && m.role.Keys == m0.role.Keys && m.pages.Keys == m0.pages.Keys
    && forall q :: q in m0.role && Under(m0.role[q], r, l, pre) && q in m0.pages ==>
       m.role[q] == m0.role[q] && m.pages[q] == m0.pages[q]
  }

  /** They are free in m'; all other pages are as in m. */
  ghost predicate FreedUnder(m0: Mem, m: Mem, m': Mem, r: nat, l: nat, pre: nat)
    requires l <= 2
  {
    && m'.lo == m.lo && m'.hi == m.hi && m'.role.Keys == m.role.Keys && m'.pages.Keys == m.pages.Keys
    && m0.role.Keys == m.role.Keys
    && (forall q :: q in m.role ==> m'.role[q] == if Under(m0.role[q], r, l, pre) then Free else m.role[q])
    && (forall q :: q in m.role && q in m.pages && !Under(m0.role[q], r, l, pre) ==> m'.pages[q] == m.pages[q])
  }

  /** Those below the first i entries of p, which is that node, are free, and p still
      has its other entries. */
  ghost predicate FreedFirst(m0: Mem, m: Mem, m': Mem, p: nat, r: nat, l: nat, pre: nat, i: nat)
    requires l <= 2
  {
    && m'.lo == m.lo && m'.hi == m.hi && m'.role.Keys == m.role.Keys && m'.pages.Keys == m.pages.Keys
    && m0.role.Keys == m.role.Keys
    && (forall q :: q in m.role ==> m'.role[q] == if UnderFirst(m0.role[q], r, l, pre, i) then Free else m.role[q])
    && (forall q :: q in m.role && q in m.pages && q != p && !UnderFirst(m0.role[q], r, l, pre, i) ==>
       m'.pages[q] == m.pages[q])
    && IsTable(m', p) && IsTable(m0, p) && forall j :: i <= j < NPTE ==> m'.pages[p].ptes[j] == m0.pages[p].ptes[j]
  }

  lemma FirstNone(m0: Mem, m: Mem, p: nat, r: nat, l: nat, pre: nat)
    requires Tree(m0) && l <= 2 && IsNode(m0, p, r, l, pre) && Intact(m0, m, r, l, pre)
    ensures FreedFirst(m0, m, m, p, r, l, pre, 0)
  {
    assert ShapeOk(m0, p);
  }

  lemma FirstSkip(m0: Mem, m: Mem, m': Mem, p: nat, r: nat, l: nat, pre: nat, i: nat)
    requires Tree(m0) && l <= 2 && IsNode(m0, p, r, l, pre) && i < NPTE && FreedFirst(m0, m, m', p, r, l, pre, i)
    requires !Valid(m'.pages[p].ptes[i])
    ensures FreedFirst(m0, m, m', p, r, l, pre, i + 1)
  {
    hide Tree, Under, UnderFirst, Valid;
    forall q | q in m0.role ensures UnderFirst(m0.role[q], r, l, pre, i + 1) == UnderFirst(m0.role[q], r, l, pre, i) {
      UnderStep(m0.role[q], r, l, pre, i);
      if l > 0 {
        NoneUnder(m0, p, r, l, pre, i, q);
      }
    }
  }

  /** freewalk may go down to the child at entry i. */
  lemma FirstChild(m0: Mem, m: Mem, m': Mem, p: nat, r: nat, l: nat, pre: nat, i: nat)
    requires Tree(m0) && l <= 2 && IsNode(m0, p, r, l, pre) && i < NPTE && FreedFirst(m0, m, m', p, r, l, pre, i)
    requires Intact(m0, m, r, l, pre) && NoLeaves(m0, r, l, pre) && Valid(m'.pages[p].ptes[i])
    ensures l > 0 && NoRWX(m'.pages[p].ptes[i]) && IsNode(m0, Ppn(m'.pages[p].ptes[i]), r, l - 1, pre * NPTE + i)
    ensures Intact(m0, m', r, l - 1, pre * NPTE + i) && NoLeaves(m0, r, l - 1, pre * NPTE + i)
  {
    hide Tree, Under, UnderFirst;
    var pte := m'.pages[p].ptes[i];
    assert pte == m0.pages[p].ptes[i];
    ChildAt(m0, p, r, l, pre, i);
    NoLeavesDown(m0, r, l, pre, i);
    forall q | q in m0.role && Under(m0.role[q], r, l - 1, pre * NPTE + i) && q in m0.pages
      ensures m'.role[q] == m0.role[q] && m'.pages[q] == m0.pages[q]
    {
      UnderStep(m0.role[q], r, l, pre, i);
      UnderStepUp(m0.role[q], r, l, pre, i);
      LowerLevel(m0.role[q], r, l, pre, i);
    }
  }

  lemma LowerLevel(n: Role, r: nat, l: nat, pre: nat, i: nat)
    requires 1 <= l <= 2 && Under(n, r, l - 1, pre * NPTE + i)
    ensures n.level < l
  {
  }

  lemma ChildAt(m: Mem, p: nat, r: nat, l: nat, pre: nat, i: nat)
    requires Tree(m) && l <= 2 && IsNode(m, p, r, l, pre) && IsTable(m, p) && i < NPTE && Valid(m.pages[p].ptes[i])
    requires NoLeaves(m, r, l, pre)
    ensures l > 0 && NoRWX(m.pages[p].ptes[i]) && IsNode(m, Ppn(m.pages[p].ptes[i]), r, l - 1, pre * NPTE + i)
  {
    var pte := m.pages[p].ptes[i];
    assert Under(m.role[p], r, l, pre);
    assert DownOk(m, p) && ChildOk(m, m.role[p], i, pte);
    assert pte == Ppn(pte) * 1024 + PTE_V;
    BitsOf(Ppn(pte), PTE_V);
  }

  lemma FirstMore(m0: Mem, m: Mem, m1: Mem, m2: Mem, m3: Mem, p: nat, r: nat, l: nat, pre: nat, i: nat)
    requires 1 <= l <= 2 && IsNode(m0, p, r, l, pre) && i < NPTE && FreedFirst(m0, m, m1, p, r, l, pre, i)
    requires FreedUnder(m0, m1, m2, r, l - 1, pre * NPTE + i) && IsTable(m2, p)
    requires m3 == Mem(m2.lo, m2.hi, m2.pages[p := Table(m2.pages[p].ptes[i := 0])], m2.role)
    ensures FreedFirst(m0, m, m3, p, r, l, pre, i + 1)
  {
    hide Under, UnderFirst;
    forall q | q in m0.role
      ensures UnderFirst(m0.role[q], r, l, pre, i + 1) ==
              (UnderFirst(m0.role[q], r, l, pre, i) || Under(m0.role[q], r, l - 1, pre * NPTE + i))
    {
      UnderStep(m0.role[q], r, l, pre, i);
    }
    if Under(m0.role[p], r, l - 1, pre * NPTE + i) {
      LowerLevel(m0.role[p], r, l, pre, i);
    }
  }

  /** The node itself goes last. */
  lemma FirstAll(m0: Mem, m: Mem, m1: Mem, m2: Mem, p: nat, r: nat, l: nat, pre: nat, link: Page)
    requires Tree(m0) && l <= 2 && IsNode(m0, p, r, l, pre) && FreedFirst(m0, m, m1, p, r, l, pre, NPTE)
    requires m2 == Mem(m1.lo, m1.hi, m1.pages[p := link], m1.role[p := Free])
    ensures FreedUnder(m0, m, m2, r, l, pre)
  {
    hide Under, UnderFirst, Tree;
    forall q | q in m0.role ensures Under(m0.role[q], r, l, pre) ==
      (UnderFirst(m0.role[q], r, l, pre, NPTE) || q == p) {
      UnderAll(m0.role[q], r, l, pre);
      if m0.role[q].Node? && m0.role[q].root == r && m0.role[q].level == l && m0.role[q].pre == pre {
        NodeUnique(m0, p, q, r, l, pre);
      }
    }
  }

  lemma FirstStill(m0: Mem, m: Mem, m1: Mem, p: nat, r: nat, l: nat, pre: nat, i: nat)
    requires l <= 2 && IsNode(m0, p, r, l, pre) && FreedFirst(m0, m, m1, p, r, l, pre, i) && Intact(m0, m, r, l, pre)
    ensures p in m1.role && m1.role[p] == m0.role[p] && p in m1.pages && m1.pages[p].Table?
    ensures |m1.pages[p].ptes| == NPTE && IsTable(m1, p)
    ensures forall j :: i <= j < NPTE ==> m1.pages[p].ptes[j] == m0.pages[p].ptes[j]
  {
  }

  lemma UnderStill(m0: Mem, m1: Mem, m2: Mem, p: nat, r: nat, l: nat, pre: nat, i: nat)
    requires 1 <= l <= 2 && IsNode(m0, p, r, l, pre) && FreedUnder(m0, m1, m2, r, l - 1, pre * NPTE + i)
    requires IsTable(m1, p) && p in m1.role
    ensures IsTable(m2, p) && m2.pages[p] == m1.pages[p] && p in m2.role && m2.role[p] == m1.role[p]
  {
  }

  /** Storing into the node leaves the free list alone. */
  lemma NodeChain(m0: Mem, m: Mem, m1: Mem, m2: Mem, p: nat, r: nat, l: nat, pre: nat, i: nat, head: nat,
    free: seq<nat>)
    requires 1 <= l <= 2 && IsNode(m0, p, r, l, pre) && Intact(m0, m, r, l, pre)
    requires FreedFirst(m0, m, m1, p, r, l, pre, i)
    requires FreedUnder(m0, m1, m2, r, l - 1, pre * NPTE + i) && Span(m2) && Chain(m2, head, free) && i < NPTE
    ensures IsTable(m2, p)
    ensures var m3 := Mem(m2.lo, m2.hi, m2.pages[p := Table(m2.pages[p].ptes[i := 0])], m2.role);
            Span(m3) && Chain(m3, head, free)
  {
    hide Span, Chain;
    FirstStill(m0, m, m1, p, r, l, pre, i);
    UnderStill(m0, m1, m2, p, r, l, pre, i);
    ChainKept(m2, Mem(m2.lo, m2.hi, m2.pages[p := Table(m2.pages[p].ptes[i := 0])], m2.role), head, free);
  }

  lemma NodeHeld(m0: Mem, m: Mem, m1: Mem, p: nat, r: nat, l: nat, pre: nat, head: nat, free: seq<nat>)
    requires l <= 2 && IsNode(m0, p, r, l, pre) && Intact(m0, m, r, l, pre) && FreedFirst(m0, m, m1, p, r, l, pre, NPTE)
    requires Span(m1) && Chain(m1, head, free)
    ensures p in m1.role
    ensures var m2 := Mem(m1.lo, m1.hi, m1.pages, m1.role[p := Held]); Span(m2) && Chain(m2, head, free)
  {
    hide Span, Chain;
    FirstStill(m0, m, m1, p, r, l, pre, NPTE);
    ChainKept(m1, Mem(m1.lo, m1.hi, m1.pages, m1.role[p := Held]), head, free);
  }

  /** At the root, all nodes of r are below. */
  lemma RootUnder(m: Mem, m': Mem, r: nat)
    requires Tree(m) && IsRoot(m, r) && FreedUnder(m, m, m', r, 2, 0)
    ensures NodesFreed(m, m', r)
  {
    forall q | q in m.role ensures Under(m.role[q], r, 2, 0) == (m.role[q].Node? && m.role[q].root == r) {
      assert ShapeOk(m, q);
    }
  }

  lemma SelfIntact(m: Mem, r: nat)
    requires Tree(m) && IsRoot(m, r)
    ensures Intact(m, m, r, 2, 0) && IsNode(m, r, r, 2, 0)
  {
    assert ShapeOk(m, r);
  }

  // ---- A table goes ----

  /** Every node of table r is free, and every leaf too; all else is as before. */
  ghost predicate TableFreed(m: Mem, m': Mem, r: nat) {
    && m'.lo == m.lo && m'.hi == m.hi && m'.role.Keys == m.role.Keys
    && (forall q :: q in m.role ==> m'.role[q] == if BelongsTo(m.role[q], r) then Free else m.role[q])
    && (forall q :: q in m.role && q in m.pages && !m.role[q].Node? && !BelongsTo(m.role[q], r) ==>
       q in m'.pages && m'.pages[q] == m.pages[q])
    && (forall k :: IsRoot(m', k) <==> IsRoot(m, k) && k != r)
    && (forall k, v :: IsRoot(m, k) && k != r && 0 <= v < MAXVPN ==>
       Entry(m', k, v) == Entry(m, k, v) && HasTable(m', k, v) == HasTable(m, k, v))
  }

  predicate BelongsTo(n: Role, r: nat) {
    (n.Node? && n.root == r) || (n.Leaf? && n.root == r)
  }

  /** Nodes of r have become free pages. */
  ghost predicate NodesFreed(m: Mem, m': Mem, r: nat) {
    && m'.lo == m.lo && m'.hi == m.hi && m'.role.Keys == m.role.Keys
    && (forall q :: q in m.role ==> m'.role[q] == if m.role[q].Node? && m.role[q].root == r then Free else m.role[q])
    && (forall q :: q in m.role && q in m.pages && !(m.role[q].Node? && m.role[q].root == r) ==>
       q in m'.pages && m'.pages[q] == m.pages[q])
  }

  lemma NodesFreedTree(m: Mem, m': Mem, r: nat)
    requires Tree(m) && NodesFreed(m, m', r)
    ensures Tree(m')
  {
    forall q | q in m'.role ensures ShapeOk(m', q) && DownOk(m', q) && UpOk(m', q) {
      assert ShapeOk(m, q) && DownOk(m, q) && UpOk(m, q);
      if m'.role[q].Node? && m'.role[q].level > 0 {
        forall i | 0 <= i < NPTE && Valid(m'.pages[q].ptes[i]) ensures ChildOk(m', m'.role[q], i, m'.pages[q].ptes[i]) {
          assert ChildOk(m, m.role[q], i, m.pages[q].ptes[i]);
        }
      }
    }
  }

  lemma {:induction false} NodesFreedAt(m: Mem, m': Mem, r: nat, k: nat, v: nat, l: nat)
    requires Tree(m) && NodesFreed(m, m', r) && IsRoot(m, k) && k != r && v < MAXVPN && l <= 2
    ensures NodeAt(m', k, v, l) == NodeAt(m, k, v, l)
    decreases 2 - l
  {
    if l < 2 {
      NodesFreedAt(m, m', r, k, v, l + 1);
      if NodeAt(m, k, v, l + 1).Some? {
        NodeAtRole(m, k, v, l + 1);
      }
    }
  }

  lemma NodesFreedMaps(m: Mem, m': Mem, r: nat)
    requires Tree(m) && NodesFreed(m, m', r)
    ensures forall k :: IsRoot(m', k) <==> IsRoot(m, k) && k != r
    ensures forall k, v :: IsRoot(m, k) && k != r && 0 <= v < MAXVPN ==>
              Entry(m', k, v) == Entry(m, k, v) && HasTable(m', k, v) == HasTable(m, k, v)
  {
    forall k ensures IsRoot(m', k) <==> IsRoot(m, k) && k != r {
      assert k in m.role ==> ShapeOk(m, k);
    }
    forall k, v | IsRoot(m, k) && k != r && 0 <= v < MAXVPN
      ensures Entry(m', k, v) == Entry(m, k, v) && HasTable(m', k, v) == HasTable(m, k, v)
    {
      NodesFreedAt(m, m', r, k, v, 0);
      if NodeAt(m, k, v, 0).Some? {
        NodeAtRole(m, k, v, 0);
      }
    }
  }

  /** uvmfree: first the leaves go, then the nodes. */
  lemma FreedAll(m: Mem, m1: Mem, m2: Mem, r: nat, n: nat)
    requires Own(m) && Own(m1) && Tree(m1) && IsRoot(m, r) && Cleared(m, m1, r, 0, n, true) && NodesFreed(m1, m2, r)
    requires forall v :: n <= v < MAXVPN ==> !Valid(Entry(m, r, v))
    ensures Tree(m2) && Own(m2) && TableFreed(m, m2, r)
  {
    hide Tree, Entry, HasTable, Valid, NodeAt, Own;
    NodesFreedTree(m1, m2, r);
    NodesFreedMaps(m1, m2, r);
    LeavesIn(m, r, n);
    forall k, v | IsRoot(m, k) && k != r && 0 <= v < MAXVPN
      ensures Entry(m2, k, v) == Entry(m, k, v) && HasTable(m2, k, v) == HasTable(m, k, v)
    {
      assert IsRoot(m1, k);
    }
    FreedOwn(m1, m2, r);
  }

  lemma LeavesIn(m: Mem, r: nat, n: nat)
    requires Own(m) && forall v :: n <= v < MAXVPN ==> !Valid(Entry(m, r, v))
    ensures forall q :: q in m.role && m.role[q].Leaf? && m.role[q].root == r ==> LeafIn(m.role[q], r, 0, n)
  {
    hide Entry, Valid;
    forall q | q in m.role && m.role[q].Leaf? && m.role[q].root == r ensures LeafIn(m.role[q], r, 0, n) {
      assert LeafOk(m, q);
    }
  }

  lemma FreedOwn(m1: Mem, m2: Mem, r: nat)
    requires Own(m1) && NodesFreed(m1, m2, r) && forall k :: IsRoot(m2, k) <==> IsRoot(m1, k) && k != r
    requires forall k, v :: IsRoot(m1, k) && k != r && 0 <= v < MAXVPN ==> Entry(m2, k, v) == Entry(m1, k, v)
    requires forall q :: q in m1.role && m1.role[q].Leaf? ==> m1.role[q].root != r
    ensures Own(m2)
  {
    hide Entry, Valid;
    forall q | q in m2.role ensures LeafOk(m2, q) {
      assert LeafOk(m1, q);
    }
    forall k, v | IsRoot(m2, k) && 0 <= v < MAXVPN ensures EntryOk(m2, k, v) {
      assert EntryOk(m1, k, v);
    }
  }

  /** With nothing mapped, freewalk meets no leaf. */
  lemma EmptyNoLeaves(m: Mem, r: nat)
    requires Tree(m) && IsRoot(m, r) && forall v :: 0 <= v < MAXVPN ==> !Valid(Entry(m, r, v))
    ensures NoLeaves(m, r, 2, 0)
  {
    forall q, i | q in m.role && Under(m.role[q], r, 2, 0) && m.role[q].level == 0 && IsTable(m, q) && 0 <= i < NPTE
      ensures !Valid(m.pages[q].ptes[i])
    {
      var v := m.role[q].pre * NPTE + i;
      assert ShapeOk(m, q);
      assert Pre(v, 0) == m.role[q].pre && Idx(v, 0) == i;
      RoleNodeAt(m, q, r, v, 0);
      assert Entry(m, r, v) == m.pages[q].ptes[i];
    }
  }

  /** After uvmunmap nothing is mapped. */
  lemma ClearedEmpty(m: Mem, m1: Mem, r: nat, n: nat)
    requires Own(m) && IsRoot(m, r) && Cleared(m, m1, r, 0, n, true)
    requires forall v :: n <= v < MAXVPN ==> !Valid(Entry(m, r, v))
    ensures IsRoot(m1, r) && forall v :: 0 <= v < MAXVPN ==> !Valid(Entry(m1, r, v))
  {
    hide Entry, HasTable;
    assert !Valid(0);
  }

  // ---- A table comes ----

  /** The free page p becomes an empty table. */
  ghost predicate TableMade(m: Mem, m': Mem, p: nat) {
    && m'.lo == m.lo && m'.hi == m.hi && p in m.role && m.role[p] == Free && m'.role == m.role[p := Node(p, 2, 0, p)]
    && m'.pages == m.pages[p := ZeroTable()]
  }

  lemma MadeTree(m: Mem, m': Mem, p: nat)
    requires Tree(m) && TableMade(m, m', p)
    ensures Tree(m')
  {
    assert !Valid(0);
    forall q | q in m'.role ensures ShapeOk(m', q) && DownOk(m', q) && UpOk(m', q) {
      if q != p {
        assert ShapeOk(m, q) && DownOk(m, q) && UpOk(m, q);
        if m'.role[q].Node? && m'.role[q].level > 0 {
          forall i | 0 <= i < NPTE && Valid(m'.pages[q].ptes[i])
            ensures ChildOk(m', m'.role[q], i, m'.pages[q].ptes[i]) {
            assert ChildOk(m, m.role[q], i, m.pages[q].ptes[i]);
          }
        }
      }
    }
  }

  lemma {:induction false} MadeAt(m: Mem, m': Mem, p: nat, k: nat, v: nat, l: nat)
    requires Tree(m) && TableMade(m, m', p) && IsRoot(m, k) && v < MAXVPN && l <= 2
    ensures NodeAt(m', k, v, l) == NodeAt(m, k, v, l)
    decreases 2 - l
  {
    if l < 2 {
      MadeAt(m, m', p, k, v, l + 1);
      if NodeAt(m, k, v, l + 1).Some? {
        NodeAtRole(m, k, v, l + 1);
      }
    }
  }

  lemma MadeEmpty(m': Mem, p: nat, v: nat)
    requires p in m'.pages && m'.pages[p] == ZeroTable()
    ensures Entry(m', p, v) == 0 && !HasTable(m', p, v)
  {
    assert NodeAt(m', p, v, 2) == Some(p);
    assert NodeAt(m', p, v, 1) == None;
  }

  lemma MadeOk(m: Mem, m': Mem, p: nat)
    requires Tree(m) && Own(m) && TableMade(m, m', p) && p in m.pages
    ensures Tree(m') && Own(m') && IsRoot(m', p) && !IsRoot(m, p)
    ensures forall k :: IsRoot(m', k) <==> IsRoot(m, k) || k == p
    ensures forall k, v :: IsRoot(m, k) && 0 <= v < MAXVPN ==>
            Entry(m', k, v) == Entry(m, k, v) && HasTable(m', k, v) == HasTable(m, k, v)
    ensures forall v :: Entry(m', p, v) == 0 && !HasTable(m', p, v)
  {
    MadeTree(m, m', p);
    forall k, v | IsRoot(m, k) && 0 <= v < MAXVPN
      ensures Entry(m', k, v) == Entry(m, k, v) && HasTable(m', k, v) == HasTable(m, k, v)
    {
      MadeAt(m, m', p, k, v, 0);
      if NodeAt(m, k, v, 0).Some? {
        NodeAtRole(m, k, v, 0);
      }
    }
    forall v ensures Entry(m', p, v) == 0 && !HasTable(m', p, v) {
      MadeEmpty(m', p, v);
    }
    MadeOwn(m, m', p);
  }

  lemma MadeOwn(m: Mem, m': Mem, p: nat)
    requires Own(m) && TableMade(m, m', p) && p in m.pages && forall v :: Entry(m', p, v) == 0
    requires forall k, v :: IsRoot(m, k) && 0 <= v < MAXVPN ==> Entry(m', k, v) == Entry(m, k, v)
    ensures Own(m')
  {
    hide Entry;
    assert !Valid(0);
    forall q | q in m'.role ensures LeafOk(m', q) {
      assert LeafOk(m, q);
    }
    forall k, v | IsRoot(m', k) && 0 <= v < MAXVPN ensures EntryOk(m', k, v) {
      if k != p {
        assert EntryOk(m, k, v);
      }
    }
  }
}
