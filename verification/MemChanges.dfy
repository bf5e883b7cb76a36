/** How the operations on page tables change memory: nodes added, pages mapped, pages
    unmapped and released, each as a relation between the memory before and after. */
module MemChanges {
  import opened Common
  import opened PageTables

  // ---- What an operation may change ----

  /** Nodes of r's tree may have been added and PTEs in nodes changed; nothing else. */
  ghost predicate Framed(m: Mem, m': Mem, r: nat) {
    && m'.lo == m.lo && m'.hi == m.hi && m'.role.Keys == m.role.Keys
    && (forall q :: q in m.role ==> m'.role[q] == m.role[q] || (m.role[q] == Free && NodeOf(m'.role[q], r)))
    && (forall q :: q in m.role && (m.role[q].Leaf? || m.role[q].Held?) && q in m.pages ==>
       q in m'.pages && m'.pages[q] == m.pages[q])
    && (forall k, v :: IsRoot(m, k) && 0 <= v < MAXVPN && HasTable(m, k, v) ==> HasTable(m', k, v))
  }

  predicate NodeOf(n: Role, r: nat) {
    n.Node? && n.root == r && n.level < 2
  }

  lemma FramedTrans(m0: Mem, m1: Mem, m2: Mem, r: nat)
    requires Framed(m0, m1, r) && Framed(m1, m2, r)
    ensures Framed(m0, m2, r)
  {
    hide HasTable;
    forall k, v | IsRoot(m0, k) && 0 <= v < MAXVPN && HasTable(m0, k, v) ensures HasTable(m2, k, v) {
      assert IsRoot(m1, k) && HasTable(m1, k, v);
    }
  }

  lemma MapsTrans(m0: Mem, m1: Mem, m2: Mem)
    requires SameMaps(m0, m1) && SameMaps(m1, m2)
    ensures SameMaps(m0, m2)
  {
    hide Entry;
    forall r, v | IsRoot(m0, r) && 0 <= v < MAXVPN ensures Entry(m2, r, v) == Entry(m0, r, v) {
      assert IsRoot(m1, r) && Entry(m1, r, v) == Entry(m0, r, v);
    }
  }

  lemma SameTrans(m0: Mem, m1: Mem, m2: Mem)
    requires SameMaps(m0, m1) && SameTables(m0, m1) && SameMaps(m1, m2) && SameTables(m1, m2)
    ensures SameMaps(m0, m2) && SameTables(m0, m2)
  {
    hide Entry, HasTable;
    MapsTrans(m0, m1, m2);
    forall r, v | IsRoot(m0, r) && 0 <= v < MAXVPN ensures HasTable(m2, r, v) == HasTable(m0, r, v) {
      assert IsRoot(m1, r);
    }
  }

  lemma SelfFramed(m: Mem, r: nat)
    ensures Framed(m, m, r) && SameMaps(m, m)
  {
  }

  lemma WalkTop(m: Mem, r: nat, vpn: nat)
    ensures NodeAt(m, r, vpn, 2) == Some(r)
  {
  }

  /** One step of walk down vpn's path. */
  lemma WalkDown(m: Mem, r: nat, vpn: nat, l: nat)
    requires Tree(m) && IsRoot(m, r) && vpn < MAXVPN && 1 <= l <= 2 && NodeAt(m, r, vpn, l).Some?
    ensures var p := NodeAt(m, r, vpn, l).value;
            && IsTable(m, p) && p in m.pages && m.pages[p].Table? && Idx(vpn, l) < |m.pages[p].ptes|
            && var pte := m.pages[p].ptes[Idx(vpn, l)];
               if Valid(pte) then NodeAt(m, r, vpn, l - 1) == Some(Ppn(pte)) else !HasTable(m, r, vpn)
  {
    NodeAtRole(m, r, vpn, l);
  }

  lemma WalkEnd(m: Mem, r: nat, vpn: nat)
    ensures HasTable(m, r, vpn) <==> NodeAt(m, r, vpn, 0).Some?
  {
  }

  /** Nodes below level l that vpn's path does not have. */
  function MissingBelow(m: Mem, r: nat, vpn: nat, l: nat): nat
    requires l <= 2
  {
    (if 1 <= l && NodeAt(m, r, vpn, 0).None? then 1 else 0) + (if 2 <= l && NodeAt(m, r, vpn, 1).None? then 1 else 0)
  }

  /** Nodes that walk must make to reach vpn's PTE. */
  function Missing(m: Mem, r: nat, vpn: nat): nat {
    MissingBelow(m, r, vpn, 2)
  }

  lemma MissingAll(m: Mem, r: nat, vpn: nat)
    ensures Missing(m, r, vpn) == MissingBelow(m, r, vpn, 2)
  {
  }

  lemma MissingEnd(m: Mem, r: nat, vpn: nat)
    ensures MissingBelow(m, r, vpn, 0) == 0
  {
  }

  /** Below an entry that is there nothing is missing at its level, below one that is not
      everything is. */
  lemma MissingDown(m: Mem, r: nat, vpn: nat, l: nat)
    requires 1 <= l <= 2 && NodeAt(m, r, vpn, l).Some? && IsTable(m, NodeAt(m, r, vpn, l).value)
    ensures var pte := m.pages[NodeAt(m, r, vpn, l).value].ptes[Idx(vpn, l)];
            MissingBelow(m, r, vpn, l) == if Valid(pte) then MissingBelow(m, r, vpn, l - 1) else l
  {
    assert NodeAt(m, r, vpn, 1).None? ==> NodeAt(m, r, vpn, 0).None?;
  }

  lemma MissingNew(m: Mem, r: nat, vpn: nat, l: nat, c: nat)
    requires 1 <= l <= 2 && NodeAt(m, r, vpn, l - 1) == Some(c) && c in m.pages && m.pages[c] == ZeroTable()
    ensures MissingBelow(m, r, vpn, l - 1) == l - 1
  {
    assert !Valid(0);
  }

  lemma MissingKept(m: Mem, m': Mem, r: nat, vpn: nat, p: nat, pg: Page)
    requires Tree(m) && IsRoot(m, r) && vpn < MAXVPN && TookPage(m, m', p, pg)
    ensures Missing(m', r, vpn) == Missing(m, r, vpn)
  {
    SameNodesAt(m, m', r, vpn, 1);
    SameNodesAt(m, m', r, vpn, 0);
  }

  lemma Taken(m: Mem, p: nat, pg: Page)
    requires Tree(m) && p in m.role && !m.role[p].Node?
    ensures var m' := Mem(m.lo, m.hi, m.pages[p := pg], m.role[p := Held]);
            Tree(m') && SameMaps(m, m') && SameTables(m, m')
  {
    SameNodesTree(m, Mem(m.lo, m.hi, m.pages[p := pg], m.role[p := Held]));
  }

  /** Free page c becomes an empty node below entry i of p. */
  function Added(m: Mem, c: nat, p: nat, i: nat): Mem
    requires IsTable(m, p) && i < NPTE && c != p && p in m.role && m.role[p].Node? && m.role[p].level > 0
  {
    Grown(Mem(m.lo, m.hi, m.pages[c := Filled(5)], m.role[c := Held]), p, i, c)
  }

  ghost predicate CanAdd(m: Mem, free: seq<nat>, p: nat, i: nat, r: nat) {
    && free != [] && IsTable(m, p) && i < NPTE && p in m.role && m.role[p].Node? && m.role[p].level in {1, 2}
    && m.role[p].root == r
    && m.role[p].pre * NPTE + i < PreBound(m.role[p].level - 1) && !Valid(m.pages[p].ptes[i])
  }

  lemma ChainKept(m: Mem, m': Mem, head: nat, free: seq<nat>)
    requires Span(m) && Chain(m, head, free) && m'.lo == m.lo && m'.hi == m.hi
    requires m'.role.Keys == m.role.Keys && m'.pages.Keys == m.pages.Keys
    requires forall q :: q in m.role ==> (m'.role[q] == Free <==> m.role[q] == Free)
    requires forall q :: q in m.role && q in m.pages && m.role[q] == Free ==> m'.pages[q] == m.pages[q]
    ensures Span(m') && Chain(m', head, free)
  {
    forall i | 0 <= i < |free| ensures free[i] in m'.pages && m'.pages[free[i]] == Run(NextFree(free, i)) {
      assert free[i] in free;
    }
  }

  lemma AddedPages(m: Mem, c: nat, p: nat, i: nat)
    requires IsTable(m, p) && i < NPTE && c != p && c in m.pages && c in m.role && p in m.role && m.role[p].Node?
    requires m.role[p].level > 0
    ensures var m' := Added(m, c, p, i);
            && m'.lo == m.lo && m'.hi == m.hi && m'.role.Keys == m.role.Keys && m'.pages.Keys == m.pages.Keys
            && (forall q :: q in m.role && q != c ==> m'.role[q] == m.role[q])
            && (forall q :: q in m.pages && q != c && q != p ==> m'.pages[q] == m.pages[q])
            && m'.role[c] == Node(m.role[p].root, m.role[p].level - 1, m.role[p].pre * NPTE + i, p)
            && m'.pages[p] == Table(m.pages[p].ptes[i := c * 1024 + PTE_V])
  {
  }

  lemma AddHere(m: Mem, r: nat, vpn: nat, l: nat, free: seq<nat>)
    requires Tree(m) && IsRoot(m, r) && vpn < MAXVPN && 1 <= l <= 2 && NodeAt(m, r, vpn, l).Some?
    requires var p := NodeAt(m, r, vpn, l).value; IsTable(m, p) && !Valid(m.pages[p].ptes[Idx(vpn, l)])
    ensures var p := NodeAt(m, r, vpn, l).value;
            && Idx(vpn, l) < NPTE && p in m.role && p in m.pages && m.pages[p].Table? && |m.pages[p].ptes| == NPTE
            && m.role[p].Node?
            && m.role[p].level == l && m.role[p].root == r && IsNode(m, p, r, l, Pre(vpn, l))
            && (free != [] ==> CanAdd(m, free, p, Idx(vpn, l), r))
  {
    NodeAtRole(m, r, vpn, l);
    PreStep(vpn, l);
    PreInBound(vpn, l - 1);
  }

  /** Level-0 tables are new at most in r's tree, for first .. first + n. */
  ghost predicate NewIn(m: Mem, m': Mem, r: nat, first: nat, n: nat) {
    forall k, v :: IsRoot(m, k) && 0 <= v < MAXVPN && HasTable(m', k, v) ==>
      HasTable(m, k, v) || (k == r && n > 0 && first / NPTE <= v / NPTE <= (first + n - 1) / NPTE)
  }

  lemma {:induction false} TableGroup(m: Mem, r: nat, u: nat, v: nat, l: nat)
    requires u / NPTE == v / NPTE && l <= 2
    ensures NodeAt(m, r, u, l) == NodeAt(m, r, v, l)
    decreases 2 - l
  {
    if l < 2 {
      TableGroup(m, r, u, v, l + 1);
      assert u / 0x4_0000 == (u / NPTE) / NPTE && v / 0x4_0000 == (v / NPTE) / NPTE;
    }
  }

  /** A table new in vpn's group but absent at vpn is no new table. */
  lemma NewInNone(m: Mem, m': Mem, r: nat, vpn: nat)
    requires NewIn(m, m', r, vpn, 1) && !HasTable(m', r, vpn)
    ensures NewIn(m, m', r, vpn, 0)
  {
    hide NodeAt;
    forall k, v | IsRoot(m, k) && 0 <= v < MAXVPN && HasTable(m', k, v) ensures HasTable(m, k, v) {
      if k == r && v / NPTE == vpn / NPTE {
        TableGroup(m', r, v, vpn, 0);
      }
    }
  }

  lemma NewInTrans(m: Mem, m1: Mem, m2: Mem, r: nat, first: nat, n: nat, k: nat)
    requires NewIn(m, m1, r, first, n) && NewIn(m1, m2, r, first + n, k) && forall q :: IsRoot(m, q) ==> IsRoot(m1, q)
    ensures NewIn(m, m2, r, first, n + k)
  {
    hide HasTable;
    if n > 0 && k > 0 {
      assert first / NPTE <= (first + n) / NPTE <= (first + n + k - 1) / NPTE
        && (first + n - 1) / NPTE <= (first + n + k - 1) / NPTE;
    }
  }

  lemma NewInOne(m: Mem, m1: Mem, m2: Mem, r: nat, vpn: nat)
    requires NewIn(m, m1, r, vpn, 1) && NewIn(m1, m2, r, vpn, 1) && forall q :: IsRoot(m, q) ==> IsRoot(m1, q)
    ensures NewIn(m, m2, r, vpn, 1)
  {
    hide HasTable;
  }

  /** The node added on vpn's path makes at most vpn's level-0 table. */
  lemma NodeTables(m: Mem, head: nat, free: seq<nat>, p: nat, i: nat, r: nat, vpn: nat, l: nat)
    requires Span(m) && Chain(m, head, free) && Tree(m) && CanAdd(m, free, p, i, r) && head in m.role
    requires m.role[head] == Free && head != p
    requires 1 <= l <= 2 && vpn < MAXVPN && IsNode(m, p, r, l, Pre(vpn, l)) && i == Idx(vpn, l)
    requires Tree(Added(m, head, p, i)) && SameMaps(m, Added(m, head, p, i))
    ensures NewIn(m, Added(m, head, p, i), r, vpn, 1)
  {
    hide Tree, Span, Chain, Entry, Idx, Pre;
    var m' := Added(m, head, p, i);
    var m1 := Mem(m.lo, m.hi, m.pages[head := Filled(5)], m.role[head := Held]);
    AddTaken(m, head, free, p, i, r);
    Taken(m, head, Filled(5));
    PreStep(vpn, l);
    AddedPages(m, head, p, i);
    hide Added;
    forall k, v | IsRoot(m, k) && 0 <= v < MAXVPN && HasTable(m', k, v)
      ensures HasTable(m, k, v) || (k == r && vpn / NPTE == v / NPTE)
    {
      assert IsRoot(m1, k);
      GrownNode(m1, p, i, head, k, v, 0);
      if !HasTable(m1, k, v) {
        NodeAtRole(m', k, v, 0);
        assert m'.role[head].level == 0 && m'.role[head].pre == Pre(v, 0);
        PreOfZero(v, vpn);
      }
    }
  }

  lemma PreOfZero(v: nat, vpn: nat)
    ensures Pre(v, 0) == v / NPTE && Pre(vpn, 0) == vpn / NPTE
  {
  }

  lemma AddTaken(m: Mem, head: nat, free: seq<nat>, p: nat, i: nat, r: nat)
    requires Span(m) && Chain(m, head, free) && CanAdd(m, free, p, i, r)
    ensures head in m.role && m.role[head] == Free && head != p && head in m.pages && !m.role[head].Node?
    ensures var m1 := Mem(m.lo, m.hi, m.pages[head := Filled(5)], m.role[head := Held]);
            && Span(m1) && Chain(m1, NextFree(free, 0), free[1..]) && CanGrow(m1, p, i, head)
            && Added(m, head, p, i) == Grown(m1, p, i, head)
  {
    ChainPop(m, head, free, Filled(5));
  }

  lemma AddedFramed(m: Mem, c: nat, p: nat, i: nat, r: nat)
    requires IsTable(m, p) && i < NPTE && c != p && c in m.pages && c in m.role && m.role[c] == Free
    requires p in m.role && m.role[p].Node? && m.role[p].level in {1, 2} && m.role[p].root == r
    requires var m1, m' := Mem(m.lo, m.hi, m.pages[c := Filled(5)], m.role[c := Held]), Added(m, c, p, i);
             SameTables(m, m1) && forall k, v :: IsRoot(m1, k) && 0 <= v < MAXVPN && HasTable(m1, k, v) ==>
               HasTable(m', k, v)
    ensures Framed(m, Added(m, c, p, i), r)
  {
    hide HasTable, Added, Filled;
    var m1, m' := Mem(m.lo, m.hi, m.pages[c := Filled(5)], m.role[c := Held]), Added(m, c, p, i);
    AddedPages(m, c, p, i);
    forall k, v | IsRoot(m, k) && 0 <= v < MAXVPN && HasTable(m, k, v) ensures HasTable(m', k, v) {
      assert IsRoot(m1, k) && HasTable(m1, k, v);
    }
  }

  lemma AddedChain(m: Mem, c: nat, p: nat, i: nat, head: nat, free: seq<nat>)
    requires IsTable(m, p) && i < NPTE && c != p && c in m.pages && c in m.role && p in m.role && m.role[p].Node?
    requires m.role[p].level > 0
    requires var m1 := Mem(m.lo, m.hi, m.pages[c := Filled(5)], m.role[c := Held]); Span(m1) && Chain(m1, head, free)
    ensures Span(Added(m, c, p, i)) && Chain(Added(m, c, p, i), head, free)
  {
    hide Added, Span, Chain, Filled;
    AddedPages(m, c, p, i);
    ChainKept(Mem(m.lo, m.hi, m.pages[c := Filled(5)], m.role[c := Held]), Added(m, c, p, i), head, free);
  }

  lemma NodeAdded(m: Mem, head: nat, free: seq<nat>, p: nat, i: nat, r: nat)
    requires Span(m) && Chain(m, head, free) && Tree(m) && CanAdd(m, free, p, i, r)
    ensures head in m.role && m.role[head] == Free && head != p
    ensures var m' := Added(m, head, p, i);
            Span(m') && Chain(m', NextFree(free, 0), free[1..]) && Tree(m') && SameMaps(m, m') && Framed(m, m', r)
  {
    hide Span, Chain, Tree, SameMaps, SameTables, Framed, Added, Grown, CanGrow, HasTable, IsRoot, IsTable, Valid,
      Filled, NextFree;
    var m1 := Mem(m.lo, m.hi, m.pages[head := Filled(5)], m.role[head := Held]);
    AddTaken(m, head, free, p, i, r);
    Taken(m, head, Filled(5));
    GrownTree(m1, p, i, head);
    GrownMaps(m1, p, i, head);
    MapsTrans(m, m1, Added(m, head, p, i));
    AddedFramed(m, head, p, i, r);
    AddedChain(m, head, p, i, NextFree(free, 0), free[1..]);
  }

  /** The new node is the next one on vpn's path. */
  lemma NodeFound(m: Mem, head: nat, free: seq<nat>, p: nat, i: nat, r: nat, vpn: nat, l: nat)
    requires Span(m) && Chain(m, head, free) && Tree(m) && CanAdd(m, free, p, i, r) && head in m.role && head != p
    requires 1 <= l <= 2 && vpn < MAXVPN && IsNode(m, p, r, l, Pre(vpn, l)) && i == Idx(vpn, l)
    requires Tree(Added(m, head, p, i))
    ensures NodeAt(Added(m, head, p, i), r, vpn, l - 1) == Some(head) && IsRoot(Added(m, head, p, i), r)
  {
    var m' := Added(m, head, p, i);
    AddedPages(m, head, p, i);
    PreStep(vpn, l);
    assert IsNode(m', head, r, l - 1, Pre(vpn, l - 1));
    RoleNodeAt(m', head, r, vpn, l - 1);
  }

  lemma LoadOk(m: Mem, r: nat, vpn: nat)
    requires Tree(m) && IsRoot(m, r) && vpn < MAXVPN && NodeAt(m, r, vpn, 0).Some?
    ensures var p := NodeAt(m, r, vpn, 0).value;
            && p in m.pages && m.pages[p].Table? && |m.pages[p].ptes| == NPTE && Idx(vpn, 0) < NPTE
            && m.pages[p].ptes[Idx(vpn, 0)] == Entry(m, r, vpn)
  {
    NodeAtRole(m, r, vpn, 0);
  }

  /** The PTE of vpn in r's table is now `word`; tables and roles are as before. */
  ghost predicate Stored(m: Mem, m': Mem, r: nat, vpn: nat, word: nat) {
    && OneMapped(m, m', r, vpn, word) && SameTables(m, m') && Framed(m, m', r) && m'.role == m.role
    && forall q :: q in m.pages && q in m.role && !m.role[q].Node? ==> q in m'.pages && m'.pages[q] == m.pages[q]
  }

  lemma StoreOk(m: Mem, r: nat, vpn: nat, word: nat, head: nat, free: seq<nat>)
    requires Span(m) && Chain(m, head, free) && Tree(m) && IsRoot(m, r) && vpn < MAXVPN && NodeAt(m, r, vpn, 0).Some?
    ensures var p := NodeAt(m, r, vpn, 0).value;
            && p in m.pages && m.pages[p].Table? && |m.pages[p].ptes| == NPTE && Idx(vpn, 0) < NPTE
            && var m' := Mem(m.lo, m.hi, m.pages[p := Table(m.pages[p].ptes[Idx(vpn, 0) := word])], m.role);
               Span(m') && Chain(m', head, free) && Tree(m') && Stored(m, m', r, vpn, word)
  {
    hide Span, Chain, Tree, OneMapped, HasTable;
    var p := NodeAt(m, r, vpn, 0).value;
    NodeAtRole(m, r, vpn, 0);
    SetLeaf(m, p, r, vpn, word);
    ChainKept(m, SetPte(m, p, Idx(vpn, 0), word), head, free);
  }

  /** Table r maps pages first .. first + n to consecutive pages from ppn; all else is
      mapped as before. */
  ghost predicate Mapped(m: Mem, m': Mem, r: nat, first: nat, n: nat, ppn: nat, perm: nat)
    requires perm < 1024
  {
    && (forall k :: IsRoot(m, k) <==> IsRoot(m', k))
    && forall k, v :: IsRoot(m, k) && 0 <= v < MAXVPN ==>
         Entry(m', k, v) == if k == r && first <= v < first + n then MkPte(ppn + v - first, perm) else Entry(m, k, v)
  }

  lemma NoneMapped(m: Mem, r: nat, first: nat, ppn: nat, perm: nat)
    requires perm < 1024
    ensures Mapped(m, m, r, first, 0, ppn, perm)
  {
  }

  lemma MappedSame(m: Mem, m1: Mem, m2: Mem, r: nat, first: nat, n: nat, ppn: nat, perm: nat)
    requires perm < 1024 && Mapped(m, m1, r, first, n, ppn, perm) && SameMaps(m1, m2) && Framed(m, m1, r)
    requires Framed(m1, m2, r)
    ensures Mapped(m, m2, r, first, n, ppn, perm) && Framed(m, m2, r)
    ensures forall v :: 0 <= v < MAXVPN && IsRoot(m1, r) && HasTable(m1, r, v) ==> HasTable(m2, r, v)
  {
    hide Entry, HasTable, MkPte;
    FramedTrans(m, m1, m2, r);
    forall k, v | IsRoot(m, k) && 0 <= v < MAXVPN ensures Entry(m2, k, v) == Entry(m1, k, v) {
      assert IsRoot(m1, k);
    }
  }

  lemma MappedNext(m: Mem, m1: Mem, m2: Mem, r: nat, first: nat, n: nat, ppn: nat, perm: nat)
    requires perm < 1024 && Mapped(m, m1, r, first, n, ppn, perm) && SameMaps(m1, m2) && IsRoot(m1, r)
    requires first + n < MAXVPN
    ensures Entry(m2, r, first + n) == Entry(m, r, first + n)
  {
    hide Entry, MkPte;
  }

  lemma MappedMore(m: Mem, m1: Mem, m2: Mem, m3: Mem, r: nat, first: nat, n: nat, ppn: nat, perm: nat)
    requires perm < 1024 && Mapped(m, m1, r, first, n, ppn, perm) && SameMaps(m1, m2) && Framed(m, m1, r)
    requires Framed(m1, m2, r)
    requires Stored(m2, m3, r, first + n, MkPte(ppn + n, perm)) && IsRoot(m2, r) && HasTable(m2, r, first + n)
    requires first + n < MAXVPN
    ensures Mapped(m, m3, r, first, n + 1, ppn, perm) && Framed(m, m3, r) && IsRoot(m3, r)
    ensures forall v :: 0 <= v < MAXVPN && (HasTable(m1, r, v) || v == first + n) ==> HasTable(m3, r, v)
  {
    hide Entry, HasTable, MkPte;
    MappedSame(m, m1, m2, r, first, n, ppn, perm);
    FramedTrans(m, m2, m3, r);
    forall k, v | IsRoot(m, k) && 0 <= v < MAXVPN
      ensures Entry(m3, k, v) == if k == r && first <= v < first + n + 1 then MkPte(ppn + v - first, perm)
              else Entry(m, k, v)
    {
      assert IsRoot(m2, k);
    }
  }

  // ---- Unmapping ----

  /** Role n is that of a page r's table maps in first .. first + n. */
  predicate LeafIn(n: Role, r: nat, first: nat, count: nat) {
    n.Leaf? && n.root == r && first <= n.vpn < first + count
  }

  /** Table r maps nothing in first .. first + n; its pages there are free, or in kernel
      hands; all else is as before. */
  ghost predicate Cleared(m: Mem, m': Mem, r: nat, first: nat, n: nat, doFree: bool) {
    && m'.lo == m.lo && m'.hi == m.hi
    && (forall k :: IsRoot(m, k) <==> IsRoot(m', k))
    && (forall k, v :: IsRoot(m, k) && 0 <= v < MAXVPN ==>
          Entry(m', k, v) == if k == r && first <= v < first + n && Valid(Entry(m, k, v)) then 0 else Entry(m, k, v))
    && m'.role.Keys == m.role.Keys
    && (forall q :: q in m.role ==>
          m'.role[q] == if LeafIn(m.role[q], r, first, n) then (if doFree then Free else Held) else m.role[q])
    && (forall q :: q in m.role && q in m.pages && !m.role[q].Node? && !(doFree && LeafIn(m.role[q], r, first, n)) ==>
          q in m'.pages && m'.pages[q] == m.pages[q])
    && SameTables(m, m')
  }

  lemma NoneCleared(m: Mem, r: nat, first: nat, doFree: bool)
    ensures Cleared(m, m, r, first, 0, doFree)
  {
  }

  /** An invalid PTE is passed over. */
  lemma ClearedSkip(m: Mem, m': Mem, r: nat, first: nat, n: nat, doFree: bool)
    requires Cleared(m, m', r, first, n, doFree) && Own(m) && IsRoot(m, r) && first + n < MAXVPN
    requires !Valid(Entry(m', r, first + n))
    ensures Cleared(m, m', r, first, n + 1, doFree)
  {
    hide Entry, SameTables, Valid;
    assert Entry(m', r, first + n) == Entry(m, r, first + n);
    forall q | q in m.role ensures LeafIn(m.role[q], r, first, n + 1) == LeafIn(m.role[q], r, first, n) {
      assert LeafOk(m, q);
    }
  }

  /** Page p, mapped at v, leaves the table's hands: freed with pages[p] := pg, or held. */
  function Let(m: Mem, p: nat, doFree: bool, pg: Page): Mem {
    if doFree then Mem(m.lo, m.hi, m.pages[p := pg], m.role[p := Free]) else Mem(m.lo, m.hi, m.pages, m.role[p := Held])
  }

  lemma LetTree(m: Mem, p: nat, doFree: bool, pg: Page)
    requires Tree(m) && p in m.role && !m.role[p].Node?
    ensures Tree(Let(m, p, doFree, pg)) && SameMaps(m, Let(m, p, doFree, pg)) && SameTables(m, Let(m, p, doFree, pg))
  {
    SameNodesTree(m, Let(m, p, doFree, pg));
  }

  lemma LetNode(m: Mem, p: nat, doFree: bool, pg: Page, r: nat, v: nat)
    requires Tree(m) && p in m.role && !m.role[p].Node? && IsRoot(m, r) && v < MAXVPN
    ensures IsRoot(Let(m, p, doFree, pg), r) && NodeAt(Let(m, p, doFree, pg), r, v, 0) == NodeAt(m, r, v, 0)
  {
    hide Tree, NodeAt;
    SameNodesAt(m, Let(m, p, doFree, pg), r, v, 0);
  }

  lemma WasMapped(m: Mem, r: nat, v: nat)
    requires Own(m) && IsRoot(m, r) && v < MAXVPN && Valid(Entry(m, r, v))
    ensures Flags(Entry(m, r, v)) != PTE_V
    ensures v < USERTOP ==> Ppn(Entry(m, r, v)) in m.role && m.role[Ppn(Entry(m, r, v))] == Leaf(r, v)
    ensures forall q :: q in m.role && m.role[q] == Leaf(r, v) ==> v < USERTOP && q == Ppn(Entry(m, r, v))
  {
    assert EntryOk(m, r, v);
    forall q | q in m.role && m.role[q] == Leaf(r, v) ensures v < USERTOP && q == Ppn(Entry(m, r, v)) {
      assert LeafOk(m, q);
    }
  }

  /** One valid PTE more has been cleared. */
  ghost predicate ClearStep(m1: Mem, m2: Mem, m3: Mem, r: nat, v: nat, doFree: bool, pg: Page) {
    && IsRoot(m1, r) && v < MAXVPN && Valid(Entry(m1, r, v)) && (doFree ==> v < USERTOP)
    && m2 == (if v < USERTOP then Let(m1, Ppn(Entry(m1, r, v)), doFree, pg) else m1)
    && SameMaps(m1, m2) && SameTables(m1, m2) && Stored(m2, m3, r, v, 0)
  }

  lemma ClearedMaps(m: Mem, m1: Mem, m2: Mem, m3: Mem, r: nat, first: nat, n: nat, doFree: bool, pg: Page)
    requires Cleared(m, m1, r, first, n, doFree) && ClearStep(m1, m2, m3, r, first + n, doFree, pg)
    ensures OneMapped(m1, m3, r, first + n, 0) && SameTables(m, m3)
    ensures forall k :: IsRoot(m, k) <==> IsRoot(m3, k)
    ensures forall k, v :: IsRoot(m, k) && 0 <= v < MAXVPN ==>
              Entry(m3, k, v) == if k == r && first <= v < first + n + 1 && Valid(Entry(m, k, v)) then 0
                else Entry(m, k, v)
  {
    hide Entry, HasTable, Valid, Framed, Let;
    forall k, v | IsRoot(m, k) && 0 <= v < MAXVPN
      ensures Entry(m3, k, v) == if k == r && first <= v < first + n + 1 && Valid(Entry(m, k, v)) then 0
              else Entry(m, k, v)
    {
      assert IsRoot(m1, k) && IsRoot(m2, k);
    }
    forall k, v | IsRoot(m, k) && 0 <= v < MAXVPN ensures HasTable(m3, k, v) == HasTable(m, k, v) {
      assert IsRoot(m1, k) && IsRoot(m2, k);
    }
    forall k, v | IsRoot(m1, k) && 0 <= v < MAXVPN
      ensures Entry(m3, k, v) == if k == r && v == first + n then 0 else Entry(m1, k, v)
    {
      assert IsRoot(m2, k);
    }
  }

  lemma ClearedRoles(m: Mem, m1: Mem, m2: Mem, m3: Mem, r: nat, first: nat, n: nat, doFree: bool, pg: Page)
    requires Own(m1) && Cleared(m, m1, r, first, n, doFree) && ClearStep(m1, m2, m3, r, first + n, doFree, pg)
    ensures m3.role.Keys == m1.role.Keys && m3.role.Keys == m.role.Keys && m3.lo == m.lo && m3.hi == m.hi
    ensures forall q :: q in m1.role ==>
            m3.role[q] == if m1.role[q] == Leaf(r, first + n) then (if doFree then Free else Held) else m1.role[q]
    ensures forall q :: q in m.role ==>
              m3.role[q] == if LeafIn(m.role[q], r, first, n + 1) then (if doFree then Free else Held) else m.role[q]
  {
    hide Entry, HasTable, Valid, SameMaps, SameTables, OneMapped, Own;
    WasMapped(m1, r, first + n);
    forall q | q in m.role ensures LeafIn(m.role[q], r, first, n + 1) ==
      (LeafIn(m.role[q], r, first, n) || m.role[q] == Leaf(r, first + n)) {
    }
  }

  lemma ClearedPages(m: Mem, m1: Mem, m2: Mem, m3: Mem, r: nat, first: nat, n: nat, doFree: bool, pg: Page)
    requires Own(m1) && Cleared(m, m1, r, first, n, doFree) && ClearStep(m1, m2, m3, r, first + n, doFree, pg)
    ensures forall q :: q in m1.role && q in m1.pages && !m1.role[q].Node?
                        && !(doFree && m1.role[q] == Leaf(r, first + n)) ==>
              q in m3.pages && m3.pages[q] == m1.pages[q]
    ensures forall q :: q in m.role && q in m.pages && !m.role[q].Node?
                        && !(doFree && LeafIn(m.role[q], r, first, n + 1)) ==>
              q in m3.pages && m3.pages[q] == m.pages[q]
  {
    hide Entry, HasTable, Valid, SameMaps, SameTables, OneMapped, Own;
    WasMapped(m1, r, first + n);
  }

  lemma ClearedMore(m: Mem, m1: Mem, m2: Mem, m3: Mem, r: nat, first: nat, n: nat, doFree: bool, pg: Page)
    requires Own(m1) && Cleared(m, m1, r, first, n, doFree) && ClearStep(m1, m2, m3, r, first + n, doFree, pg)
    ensures Cleared(m, m3, r, first, n + 1, doFree) && Own(m3)
  {
    hide Entry, HasTable, Valid, SameMaps, SameTables, OneMapped, Own, Let, Stored;
    ClearedMaps(m, m1, m2, m3, r, first, n, doFree, pg);
    ClearedRoles(m, m1, m2, m3, r, first, n, doFree, pg);
    ClearedPages(m, m1, m2, m3, r, first, n, doFree, pg);
    OwnCleared(m1, m3, r, first + n);
  }

  lemma ClearStepMade(m1: Mem, m2: Mem, m3: Mem, r: nat, v: nat, doFree: bool, pg: Page)
    requires IsRoot(m1, r) && v < MAXVPN && Valid(Entry(m1, r, v)) && (doFree ==> v < USERTOP)
    requires m2 == (if v < USERTOP then Let(m1, Ppn(Entry(m1, r, v)), doFree, pg) else m1)
    requires SameMaps(m1, m2) && SameTables(m1, m2) && Stored(m2, m3, r, v, 0)
    ensures ClearStep(m1, m2, m3, r, v, doFree, pg)
  {
  }

  lemma ClearedRoot(m: Mem, m': Mem, r: nat, first: nat, n: nat, doFree: bool)
    requires Cleared(m, m', r, first, n, doFree)
    ensures IsRoot(m, r) == IsRoot(m', r) && SameTables(m, m')
    ensures forall v :: IsRoot(m, r) && 0 <= v < MAXVPN ==> HasTable(m', r, v) == HasTable(m, r, v)
  {
    hide HasTable, Entry;
  }

  lemma SelfSame(m: Mem)
    ensures SameMaps(m, m) && SameTables(m, m)
  {
  }

  lemma HeldChain(m: Mem, p: nat, head: nat, free: seq<nat>)
    requires Span(m) && Chain(m, head, free) && p in m.role && m.role[p] != Free
    ensures var m' := Mem(m.lo, m.hi, m.pages, m.role[p := Held]); Span(m') && Chain(m', head, free)
  {
    ChainKept(m, Mem(m.lo, m.hi, m.pages, m.role[p := Held]), head, free);
  }

  // ---- Pages gained by a table ----

  /** Table r maps v to a page that was free. */
  ghost predicate Fresh(m: Mem, m': Mem, r: nat, v: nat) {
    && Valid(Entry(m', r, v)) && Ppn(Entry(m', r, v)) in m.role && m.role[Ppn(Entry(m', r, v))] == Free
    && HasTable(m', r, v)
  }

  /** Table r may have gained nodes, and fresh pages in first .. first + n; all else is
      as before. */
  ghost predicate Gained(m: Mem, m': Mem, r: nat, first: nat, n: nat) {
    && m'.lo == m.lo && m'.hi == m.hi && m'.role.Keys == m.role.Keys
    && (forall q :: q in m.role ==>
          m'.role[q] == m.role[q] || (m.role[q] == Free && (NodeOf(m'.role[q], r) || LeafIn(m'.role[q], r, first, n))))
    && (forall q :: q in m.role && (m.role[q].Leaf? || m.role[q].Held?) && q in m.pages ==>
       q in m'.pages && m'.pages[q] == m.pages[q])
    && (forall k, v :: IsRoot(m, k) && 0 <= v < MAXVPN && HasTable(m, k, v) ==> HasTable(m', k, v))
    && (forall k :: IsRoot(m, k) <==> IsRoot(m', k))
    && (forall k, v :: IsRoot(m, k) && 0 <= v < MAXVPN ==>
          Entry(m', k, v) == Entry(m, k, v) || (k == r && first <= v < first + n && Fresh(m, m', r, v)))
  }

  lemma NoneGained(m: Mem, r: nat, first: nat)
    ensures Gained(m, m, r, first, 0)
  {
  }

  lemma GainedMore(m: Mem, m': Mem, r: nat, first: nat, n: nat)
    requires Gained(m, m', r, first, n)
    ensures Gained(m, m', r, first, n + 1)
  {
    hide Entry, HasTable, Fresh;
  }

  /** Taking the gained pages away again leaves at most new nodes. */
  lemma GainUndone(m: Mem, m1: Mem, m2: Mem, r: nat, first: nat, n: nat)
    requires Own(m) && IsRoot(m, r) && Gained(m, m1, r, first, n) && Cleared(m1, m2, r, first, n, true)
    requires forall v :: first <= v < first + n ==> !Valid(Entry(m, r, v))
    ensures Framed(m, m2, r) && SameMaps(m, m2)
  {
    hide Entry, HasTable, Valid;
    forall k, v | IsRoot(m, k) && 0 <= v < MAXVPN ensures Entry(m2, k, v) == Entry(m, k, v) {
      assert EntryOk(m, k, v) && IsRoot(m1, k);
    }
    forall k, v | IsRoot(m, k) && 0 <= v < MAXVPN && HasTable(m, k, v) ensures HasTable(m2, k, v) {
      assert IsRoot(m1, k);
    }
    forall q | q in m.role ensures m2.role[q] == m.role[q] || (m.role[q] == Free && NodeOf(m2.role[q], r)) {
      assert LeafOk(m, q);
    }
    forall q | q in m.role && (m.role[q].Leaf? || m.role[q].Held?) && q in m.pages
      ensures q in m2.pages && m2.pages[q] == m.pages[q] {
      assert LeafOk(m, q);
      assert m1.role[q] == m.role[q];
    }
  }

  /** Page p was taken from the free list and holds bytes pg. */
  ghost predicate TookPage(m: Mem, m': Mem, p: nat, pg: Page) {
    && p in m.role && m.role[p] == Free && p in m.pages
    && m' == Mem(m.lo, m.hi, m.pages[p := pg], m.role[p := Held])
  }

  lemma TookOk(m: Mem, m': Mem, p: nat, pg: Page)
    requires Tree(m) && Own(m) && TookPage(m, m', p, pg)
    ensures Tree(m') && Own(m') && SameMaps(m, m') && SameTables(m, m')
  {
    hide Tree, Own, SameMaps, SameTables;
    Taken(m, p, pg);
    OwnKept(m, m');
  }

  /** A held page that is mapped at v becomes r's leaf. */
  ghost predicate Adopted(m3: Mem, m4: Mem, p: nat, r: nat, v: nat) {
    m4 == Mem(m3.lo, m3.hi, m3.pages, m3.role[p := Leaf(r, v)])
  }

  lemma AdoptedOk(m2: Mem, m3: Mem, m4: Mem, r: nat, v: nat, p: nat, perm: nat)
    requires Own(m2) && Tree(m3) && IsRoot(m2, r) && v < USERTOP && !Valid(Entry(m2, r, v)) && perm < 1024
    requires !NoFlags(perm)
    requires p in m2.role && m2.role[p] == Held && IsBytes(m2, p)
    requires Framed(m2, m3, r) && Mapped(m2, m3, r, v, 1, p, perm) && Adopted(m3, m4, p, r, v)
    ensures Tree(m4) && SameMaps(m3, m4) && SameTables(m3, m4) && Own(m4)
  {
    hide Own, Tree, Entry, HasTable, UserBit, NoRWX;
    assert SameNodes(m3, m4);
    SameNodesTree(m3, m4);
    MkPteParts(p, perm);
    hide MkPte, Valid, Flags, Ppn;
    var pte := MkPte(p, perm);
    forall k, u | IsRoot(m2, k) && 0 <= u < MAXVPN
      ensures Entry(m4, k, u) == if k == r && u == v then pte else Entry(m2, k, u) {
      assert IsRoot(m3, k) && Entry(m4, k, u) == Entry(m3, k, u);
    }
    OwnMapped(m2, m4, r, v, p, pte);
  }

  /** perm asks for nothing but V: not a leaf's permissions. */
  predicate NoFlags(perm: nat) {
    perm - perm % 2 == 0
  }

  /** The steps that give table r the page p at v: taken, mapped, made its leaf. */
  ghost predicate GainSteps(m1: Mem, m2: Mem, m3: Mem, m4: Mem, r: nat, v: nat, p: nat, pg: Page, perm: nat) {
    && perm < 1024 && IsRoot(m1, r) && v < USERTOP
    && TookPage(m1, m2, p, pg) && SameMaps(m1, m2) && SameTables(m1, m2)
    && Framed(m2, m3, r) && Mapped(m2, m3, r, v, 1, p, perm) && HasTable(m3, r, v)
    && Adopted(m3, m4, p, r, v) && SameMaps(m3, m4) && SameTables(m3, m4)
  }

  /** Table r has gained page p, holding pg, at v, and perhaps nodes; all else is as
      before. */
  ghost predicate GainedOne(m1: Mem, m4: Mem, r: nat, v: nat, p: nat, pg: Page, perm: nat)
    requires perm < 1024
  {
    && OneMapped(m1, m4, r, v, MkPte(p, perm)) && HasTable(m4, r, v)
    && (forall k, u :: IsRoot(m1, k) && 0 <= u < MAXVPN && HasTable(m1, k, u) ==> HasTable(m4, k, u))
    && m4.lo == m1.lo && m4.hi == m1.hi && m4.role.Keys == m1.role.Keys && p in m1.role && m1.role[p] == Free
    && m4.role[p] == Leaf(r, v) && p in m4.pages && m4.pages[p] == pg
    && (forall q :: q in m1.role && q != p ==>
       m4.role[q] == m1.role[q] || (m1.role[q] == Free && NodeOf(m4.role[q], r)))
    && (forall q :: q in m1.role && (m1.role[q].Leaf? || m1.role[q].Held?) && q in m1.pages ==>
       q in m4.pages && m4.pages[q] == m1.pages[q])
  }

  lemma GainMaps(m1: Mem, m2: Mem, m3: Mem, m4: Mem, r: nat, v: nat, p: nat, pg: Page, perm: nat)
    requires GainSteps(m1, m2, m3, m4, r, v, p, pg, perm)
    ensures OneMapped(m1, m4, r, v, MkPte(p, perm)) && HasTable(m4, r, v)
    ensures forall k, u :: IsRoot(m1, k) && 0 <= u < MAXVPN && HasTable(m1, k, u) ==> HasTable(m4, k, u)
  {
    hide Entry, HasTable, MkPte;
    forall k, u | IsRoot(m1, k) && 0 <= u < MAXVPN
      ensures Entry(m4, k, u) == if k == r && u == v then MkPte(p, perm) else Entry(m1, k, u)
      ensures HasTable(m1, k, u) ==> HasTable(m4, k, u)
    {
      assert IsRoot(m2, k) && IsRoot(m3, k);
    }
    assert IsRoot(m3, r);
  }

  lemma GainMade(m1: Mem, m2: Mem, m3: Mem, m4: Mem, r: nat, v: nat, p: nat, pg: Page, perm: nat)
    requires perm < 1024 && GainSteps(m1, m2, m3, m4, r, v, p, pg, perm)
    ensures GainedOne(m1, m4, r, v, p, pg, perm)
  {
    hide SameMaps, SameTables, Mapped, HasTable, OneMapped;
    GainMaps(m1, m2, m3, m4, r, v, p, pg, perm);
  }

  /** The page gained at first + n. */
  lemma GainStep(m: Mem, m1: Mem, m4: Mem, r: nat, first: nat, n: nat, p: nat, pg: Page, perm: nat)
    requires Gained(m, m1, r, first, n) && IsRoot(m, r) && perm < 1024 && first + n < USERTOP
    requires GainedOne(m1, m4, r, first + n, p, pg, perm)
    ensures Gained(m, m4, r, first, n + 1)
  {
    hide Entry, HasTable, MkPte, Fresh;
    GainFresh(m, m4, r, first + n, p, perm);
    forall k, v | IsRoot(m, k) && 0 <= v < MAXVPN
      ensures Entry(m4, k, v) == Entry(m, k, v) || (k == r && first <= v < first + n + 1 && Fresh(m, m4, r, v))
      ensures HasTable(m, k, v) ==> HasTable(m4, k, v)
    {
      assert IsRoot(m1, k);
      if k == r && v != first + n && Fresh(m, m1, r, v) {
        FreshKept(m, m1, m4, r, v);
      }
    }
  }

  lemma FreshKept(m: Mem, m1: Mem, m4: Mem, r: nat, v: nat)
    requires Fresh(m, m1, r, v) && Entry(m4, r, v) == Entry(m1, r, v) && (HasTable(m1, r, v) ==> HasTable(m4, r, v))
    ensures Fresh(m, m4, r, v)
  {
  }

  lemma GainFresh(m: Mem, m4: Mem, r: nat, v: nat, p: nat, perm: nat)
    requires perm < 1024 && Entry(m4, r, v) == MkPte(p, perm) && HasTable(m4, r, v) && p in m.role && m.role[p] == Free
    ensures Fresh(m, m4, r, v)
  {
    MkPteParts(p, perm);
  }

  // ---- uvmalloc ----

  /** uvmalloc's pages: readable, writable, executable, user, and zero. */
  ghost predicate ZeroPages(m: Mem, r: nat, first: nat, n: nat) {
    forall v :: first <= v < first + n ==> ZeroAt(m, r, v)
  }

  ghost predicate ZeroAt(m: Mem, r: nat, v: nat) {
    && Valid(Entry(m, r, v)) && Flags(Entry(m, r, v)) == PTE_URWX + PTE_V
    && Ppn(Entry(m, r, v)) in m.pages && m.pages[Ppn(Entry(m, r, v))] == Filled(0)
  }

  /** Such a page is zero, and its PTE has the V, R, W, X and U bits, in their places. */
  lemma ZeroBits(m: Mem, r: nat, first: nat, n: nat, v: nat)
    requires ZeroPages(m, r, first, n) && first <= v < first + n
    ensures var pte := Entry(m, r, v);
            && pte % 2 == 1 && pte / 2 % 2 == 1 && pte / 4 % 2 == 1 && pte / 8 % 2 == 1 && pte / 16 % 2 == 1
            && Ppn(pte) in m.pages && m.pages[Ppn(pte)].Bytes?
            && forall i :: 0 <= i < |m.pages[Ppn(pte)].data| ==> m.pages[Ppn(pte)].data[i] == 0
  {
    hide Entry;
    assert ZeroAt(m, r, v);
    PteSplit(Entry(m, r, v));
    FlagBits(Entry(m, r, v), Ppn(Entry(m, r, v)));
  }

  lemma FlagBits(pte: nat, q: nat)
    requires pte == q * 1024 + PTE_URWX + PTE_V
    ensures pte % 2 == 1 && pte / 2 % 2 == 1 && pte / 4 % 2 == 1 && pte / 8 % 2 == 1 && pte / 16 % 2 == 1
  {
    HalfOdd(pte, 2, 256 * q + 7);
    HalfOdd(pte, 4, 128 * q + 3);
    HalfOdd(pte, 8, 64 * q + 1);
    HalfOdd(pte, 16, 32 * q);
  }

  lemma HalfOdd(x: nat, d: nat, k: nat)
    requires d == 2 || d == 4 || d == 8 || d == 16
    requires x == d * (2 * k + 1) + d - 1
    ensures x % 2 == 1 && x / d % 2 == 1
  {
    assert x / d == 2 * k + 1;
  }

  lemma NoZeroPages(m: Mem, r: nat, first: nat)
    ensures ZeroPages(m, r, first, 0)
  {
  }

  lemma ZeroMore(m1: Mem, m4: Mem, r: nat, first: nat, n: nat, p: nat)
    requires ZeroPages(m1, r, first, n) && Own(m1) && IsRoot(m1, r) && first + n < USERTOP
    requires GainedOne(m1, m4, r, first + n, p, Filled(0), PTE_URWX)
    ensures ZeroPages(m4, r, first, n + 1)
  {
    hide Entry, Filled, Valid, Ppn, Flags, MkPte, HasTable;
    forall v | first <= v < first + n + 1 ensures ZeroAt(m4, r, v) {
      if v == first + n {
        MkPteParts(p, PTE_URWX);
      } else {
        assert ZeroAt(m1, r, v) && EntryOk(m1, r, v);
      }
    }
  }

  lemma ZeroKept(m1: Mem, m4: Mem, r: nat, first: nat, n: nat)
    requires ZeroPages(m1, r, first, n) && Own(m1) && IsRoot(m1, r) && first + n <= USERTOP
    requires SameMaps(m1, m4) && Framed(m1, m4, r)
    ensures ZeroPages(m4, r, first, n)
  {
    hide Entry, Filled, Valid, Ppn, Flags, HasTable;
    forall v | first <= v < first + n ensures ZeroAt(m4, r, v) {
      assert ZeroAt(m1, r, v) && EntryOk(m1, r, v);
    }
  }

  /** A page that could not be mapped went back. */
  ghost predicate Returned(m1: Mem, m2: Mem, m3: Mem, m4: Mem, r: nat, p: nat, pg: Page, link: Page) {
    && TookPage(m1, m2, p, pg) && Framed(m2, m3, r) && SameMaps(m1, m2) && SameTables(m1, m2) && SameMaps(m2, m3)
    && m4 == Mem(m3.lo, m3.hi, m3.pages[p := link], m3.role[p := Free])
  }

  lemma ReturnedTree(m1: Mem, m2: Mem, m3: Mem, m4: Mem, r: nat, p: nat, pg: Page, link: Page)
    requires Tree(m3) && Returned(m1, m2, m3, m4, r, p, pg, link)
    ensures Tree(m4) && SameMaps(m3, m4) && SameTables(m3, m4)
  {
    hide Entry, HasTable, Tree, SameMaps, SameTables;
    SameNodesTree(m3, m4);
  }

  lemma ReturnedMaps(m1: Mem, m2: Mem, m3: Mem, m4: Mem, r: nat, p: nat, pg: Page, link: Page)
    requires Returned(m1, m2, m3, m4, r, p, pg, link) && SameMaps(m3, m4) && SameTables(m3, m4)
    ensures SameMaps(m1, m4)
    ensures forall k, v :: IsRoot(m1, k) && 0 <= v < MAXVPN && HasTable(m1, k, v) ==> HasTable(m4, k, v)
  {
    hide Entry, HasTable, IsRoot, TookPage;
    MapsTrans(m1, m2, m3);
    MapsTrans(m1, m3, m4);
    forall k, v | IsRoot(m1, k) && 0 <= v < MAXVPN && HasTable(m1, k, v) ensures HasTable(m4, k, v) {
      assert IsRoot(m2, k) && IsRoot(m3, k);
    }
  }

  lemma ReturnedFramed(m1: Mem, m2: Mem, m3: Mem, m4: Mem, r: nat, p: nat, pg: Page, link: Page)
    requires Returned(m1, m2, m3, m4, r, p, pg, link)
    requires forall k, v :: IsRoot(m1, k) && 0 <= v < MAXVPN && HasTable(m1, k, v) ==> HasTable(m4, k, v)
    ensures Framed(m1, m4, r)
  {
    hide SameMaps, SameTables, HasTable, IsRoot;
  }

  lemma MappedNone(m: Mem, m': Mem, r: nat, v: nat, p: nat, perm: nat)
    requires perm < 1024 && Mapped(m, m', r, v, 0, p, perm)
    ensures SameMaps(m, m')
  {
    hide Entry, MkPte;
  }

  lemma GainFailed(m1: Mem, m2: Mem, m3: Mem, m4: Mem, r: nat, v: nat, p: nat, pg: Page, perm: nat, link: Page)
    requires perm < 1024 && Own(m1) && Tree(m3)
    requires TookPage(m1, m2, p, pg) && SameMaps(m1, m2) && SameTables(m1, m2)
    requires Framed(m2, m3, r) && Mapped(m2, m3, r, v, 0, p, perm)
    requires m4 == Mem(m3.lo, m3.hi, m3.pages[p := link], m3.role[p := Free])
    ensures Framed(m1, m4, r) && SameMaps(m1, m4) && Tree(m4) && Own(m4) && SameTables(m3, m4) && SameMaps(m2, m3)
  {
    hide Tree, Own, Framed, SameMaps, SameTables, Mapped, TookPage, HasTable, IsRoot;
    MappedNone(m2, m3, r, v, p, perm);
    ReturnedTree(m1, m2, m3, m4, r, p, pg, link);
    ReturnedMaps(m1, m2, m3, m4, r, p, pg, link);
    ReturnedFramed(m1, m2, m3, m4, r, p, pg, link);
    FramedOwn(m1, m4, r);
  }

  lemma FramedOwn(m: Mem, m': Mem, r: nat)
    requires Own(m) && Framed(m, m', r) && SameMaps(m, m')
    ensures Own(m')
  {
    hide Own, Entry, HasTable, SameMaps;
    OwnKept(m, m');
  }

  lemma GainedFramed(m: Mem, m1: Mem, m4: Mem, r: nat, first: nat, n: nat)
    requires Gained(m, m1, r, first, n) && Framed(m1, m4, r) && SameMaps(m1, m4) && IsRoot(m, r)
    ensures Gained(m, m4, r, first, n) && IsRoot(m4, r)
  {
    hide Entry, HasTable, Fresh;
    forall k, v | IsRoot(m, k) && 0 <= v < MAXVPN
      ensures Entry(m4, k, v) == Entry(m, k, v) || (k == r && first <= v < first + n && Fresh(m, m4, r, v))
      ensures HasTable(m, k, v) ==> HasTable(m4, k, v)
    {
      assert IsRoot(m1, k);
      if k == r && Fresh(m, m1, r, v) {
        FreshTable(m, m1, r, v);
        FreshKept(m, m1, m4, r, v);
      }
    }
  }

  lemma FreshTable(m: Mem, m1: Mem, r: nat, v: nat)
    requires Fresh(m, m1, r, v)
    ensures HasTable(m1, r, v)
  {
  }

  lemma GainedRoots(m: Mem, m': Mem, r: nat, first: nat, n: nat)
    requires Gained(m, m', r, first, n)
    ensures forall k :: IsRoot(m, k) <==> IsRoot(m', k)
  {
    hide Entry, HasTable, Fresh, IsRoot;
  }

  lemma ZeroInvalid()
    ensures !Valid(0)
  {
  }

  lemma GainRoot(m: Mem, m': Mem, r: nat, first: nat, n: nat, v: nat)
    requires Gained(m, m', r, first, n) && IsRoot(m, r) && v < MAXVPN && !(first <= v < first + n)
    ensures IsRoot(m', r) && Entry(m', r, v) == Entry(m, r, v)
  {
    hide Entry, HasTable, Fresh;
  }

  lemma ZeroTables(m: Mem, r: nat, first: nat, n: nat)
    requires ZeroPages(m, r, first, n)
    ensures forall v :: first <= v < first + n ==> HasTable(m, r, v)
  {
    forall v | first <= v < first + n ensures HasTable(m, r, v) {
      assert ZeroAt(m, r, v);
      assert !Valid(0);
    }
  }

  // ---- Small facts ----

  lemma ZeroPageOk()
    ensures !NoFlags(PTE_URWX) && Filled(0).Bytes? && |Filled(0).data| == PGSIZE
  {
  }

  lemma FillChain(m: Mem, p: nat, head: nat, free: seq<nat>, pg: Page)
    requires Span(m) && Chain(m, head, free) && p in m.role && m.role[p] != Free
    ensures var m' := Mem(m.lo, m.hi, m.pages[p := pg], m.role); Span(m') && Chain(m', head, free)
  {
    ChainKept(m, Mem(m.lo, m.hi, m.pages[p := pg], m.role), head, free);
  }

  lemma LeafChain(m: Mem, p: nat, n: Role, head: nat, free: seq<nat>)
    requires Span(m) && Chain(m, head, free) && p in m.role && m.role[p] != Free && n != Free
    ensures var m' := Mem(m.lo, m.hi, m.pages, m.role[p := n]); Span(m') && Chain(m', head, free)
  {
    ChainKept(m, Mem(m.lo, m.hi, m.pages, m.role[p := n]), head, free);
  }

  lemma TookHere(m1: Mem, m2: Mem, p: nat, junk: Page, pg: Page)
    requires Span(m1) && p in m1.role && m1.role[p] == Free
    requires m2.lo == m1.lo && m2.hi == m1.hi && m2.role == m1.role[p := Held]
    requires m2.pages == m1.pages[p := junk][p := pg]
    ensures TookPage(m1, m2, p, pg)
  {
    assert m2.pages == m1.pages[p := pg];
  }

  lemma StillFree(m1: Mem, m2: Mem, r: nat, v: nat)
    requires SameMaps(m1, m2) && IsRoot(m1, r) && v < MAXVPN
    ensures IsRoot(m2, r) && Entry(m2, r, v) == Entry(m1, r, v)
  {
    hide Entry;
  }

  lemma HeldStill(m2: Mem, m3: Mem, r: nat, p: nat)
    requires Framed(m2, m3, r) && p in m2.role && m2.role[p] == Held
    ensures p in m3.role && m3.role[p] == Held
  {
    hide HasTable;
  }

  lemma MapsRoot(m1: Mem, m2: Mem, r: nat)
    requires SameMaps(m1, m2)
    ensures IsRoot(m1, r) == IsRoot(m2, r)
  {
    hide Entry;
  }

  lemma AdoptHere(m3: Mem, m4: Mem, p: nat, r: nat, v: nat)
    requires m4 == Mem(m3.lo, m3.hi, m3.pages, m3.role[p := Leaf(r, v)])
    ensures Adopted(m3, m4, p, r, v)
  {
  }

  lemma GainStepsMade(m1: Mem, m2: Mem, m3: Mem, m4: Mem, r: nat, v: nat, p: nat, pg: Page, perm: nat)
    requires perm < 1024 && IsRoot(m1, r) && v < USERTOP
    requires TookPage(m1, m2, p, pg) && SameMaps(m1, m2) && SameTables(m1, m2)
    requires Framed(m2, m3, r) && Mapped(m2, m3, r, v, 1, p, perm) && HasTable(m3, r, v)
    requires Adopted(m3, m4, p, r, v) && SameMaps(m3, m4) && SameTables(m3, m4)
    ensures GainSteps(m1, m2, m3, m4, r, v, p, pg, perm)
  {
  }

  lemma InPages(m: Mem, p: nat)
    requires Span(m) && p in m.role
    ensures p in m.pages && p != 0
  {
  }

  lemma SelfNewIn(m: Mem, r: nat, v: nat)
    ensures NewIn(m, m, r, v, 0) && NewIn(m, m, r, v, 1)
  {
    hide HasTable;
  }

  lemma RootsKept(m: Mem, m': Mem)
    requires SameMaps(m, m')
    ensures forall k :: IsRoot(m, k) ==> IsRoot(m', k)
  {
    hide Entry;
  }

  lemma MappedRoots(m: Mem, m': Mem, r: nat, first: nat, n: nat, ppn: nat, perm: nat)
    requires perm < 1024 && Mapped(m, m', r, first, n, ppn, perm)
    ensures forall k :: IsRoot(m, k) <==> IsRoot(m', k)
  {
    hide Entry;
  }

  lemma MappedTables(m: Mem, m1: Mem, m2: Mem, m3: Mem, r: nat, first: nat, n: nat, ppn: nat, perm: nat)
    requires perm < 1024 && Mapped(m, m1, r, first, n, ppn, perm) && SameMaps(m1, m2) && NewIn(m, m2, r, first, n + 1)
    requires Stored(m2, m3, r, first + n, MkPte(ppn + n, perm))
    ensures NewIn(m, m3, r, first, n + 1)
  {
    hide Entry, HasTable, MkPte, Framed;
    forall k, v | IsRoot(m, k) && 0 <= v < MAXVPN ensures HasTable(m3, k, v) == HasTable(m2, k, v) {
      assert IsRoot(m1, k) && IsRoot(m2, k);
    }
  }

  lemma NewInGained(m1: Mem, m2: Mem, m3: Mem, m4: Mem, r: nat, v: nat, n: nat)
    requires SameTables(m1, m2) && SameMaps(m1, m2) && NewIn(m2, m3, r, v, n) && SameTables(m3, m4)
    requires forall k :: IsRoot(m2, k) <==> IsRoot(m3, k)
    ensures NewIn(m1, m4, r, v, n)
  {
    hide Entry, HasTable;
    forall k, u | IsRoot(m1, k) && 0 <= u < MAXVPN
      ensures HasTable(m4, k, u) == HasTable(m3, k, u) && HasTable(m2, k, u) == HasTable(m1, k, u) {
      assert IsRoot(m2, k) && IsRoot(m3, k);
    }
  }
}
