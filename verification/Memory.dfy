/** The page allocator and the operations on page tables (kernel/kalloc.c, kernel/vm.c):
    loops over pages and PTEs that are updated in place. Addresses are numbers; a page is
    named by its address divided by PGSIZE. Panics are preconditions. */
module Memories {
  import opened Common
  import opened PageTables
  import opened MemChanges
  import opened PageCost
  import opened TableLife
  import opened UserBytes
  import opened CopySpec

  function RoundUp(a: nat): nat {
    (a + PGSIZE - 1) / PGSIZE
  }

  /** The address of a PTE: the table page and the index in it. */
  datatype PteAddr = PteAddr(page: nat, idx: nat)

  class Memory {
    const lo: nat
    const hi: nat
    var pages: map<nat, Page>
    var freelist: nat
    ghost var free: seq<nat>
    ghost var role: map<nat, Role>

    ghost function M(): Mem
      reads this
    {
      Mem(lo, hi, pages, role)
    }

    ghost predicate PoolOk()
      reads this
    {
      Span(M()) && Chain(M(), freelist, free)
    }

    ghost predicate Ok()
      reads this
    {
      PoolOk() && Tree(M())
    }

    ghost predicate Valid()
      reads this
    {
      Ok() && Own(M())
    }

    /** kinit: all of RAM from `end` to `stop` goes on the free list. */
    constructor (end: nat, stop: nat, ram: map<nat, Page>)
      requires 0 < end && RoundUp(end) <= stop / PGSIZE && forall p :: p in ram <==> RoundUp(end) <= p < stop / PGSIZE
      ensures Valid() && lo == RoundUp(end) && hi == stop / PGSIZE
      ensures (forall p :: lo <= p < hi ==> p in role && role[p] == Free) && |free| == hi - lo
    {
      lo, hi := RoundUp(end), stop / PGSIZE;
      freelist := 0;
      free := [];
      role := map q | q in ram :: Held;
      pages := ram;
      new;
      FreeRange(end, stop);
    }

    /** freerange: every whole page in the range goes on the free list. */
    method FreeRange(start: nat, stop: nat)
      requires PoolOk() && (forall p :: RoundUp(start) <= p < stop / PGSIZE ==> p in role && role[p] == Held)
      modifies this
      ensures PoolOk() && role.Keys == old(role).Keys
      ensures forall p :: p in role ==> role[p] == if RoundUp(start) <= p < stop / PGSIZE then Free else old(role)[p]
      ensures |free| == |old(free)| + if RoundUp(start) <= stop / PGSIZE then stop / PGSIZE - RoundUp(start) else 0
    {
      hide Span, Chain;
      var p := RoundUp(start);
      while p + 1 <= stop / PGSIZE
        invariant RoundUp(start) <= p && PoolOk() && role.Keys == old(role).Keys
        invariant |free| == |old(free)| + p - RoundUp(start) && (p == RoundUp(start) || p <= stop / PGSIZE)
        invariant forall q :: q in role ==>
                  role[q] == if RoundUp(start) <= q < p && q < stop / PGSIZE then Free else old(role)[q]
      {
        Kfree(p);
        p := p + 1;
      }
    }

    /** kalloc: the first free page, filled with junk, or 0. */
    method Kalloc() returns (p: nat)
      requires PoolOk()
      modifies this
      ensures PoolOk() && (p == 0 <==> old(free) == [])
      ensures p == 0 ==> M() == old(M()) && free == []
      ensures p != 0 ==> p in old(role) && old(role)[p] == Free && free == old(free)[1..]
      ensures p == old(freelist) && freelist == if p == 0 then 0 else NextFree(old(free), 0)
      ensures p != 0 ==> pages == old(pages)[p := Filled(5)] && role == old(role)[p := Held]
    {
      p := freelist;
      if p != 0 {
        ChainPop(M(), freelist, free, Filled(5));
        hide Span, Chain;
        freelist := pages[p].next;
        pages := pages[p := Filled(5)];
        free := free[1..];
        role := role[p := Held];
      }
    }

    /** kfree: a page in kernel hands goes to the front of the free list. */
    method Kfree(p: nat)
      requires PoolOk() && p in role && role[p] == Held
      modifies this
      ensures PoolOk() && free == [p] + old(free)
      ensures pages == old(pages)[p := Run(old(freelist))] && role == old(role)[p := Free]
    {
      ChainPush(M(), freelist, free, p);
      hide Span, Chain;
      pages := pages[p := Run(freelist)];
      freelist := p;
      free := [p] + free;
      role := role[p := Free];
    }

    /** walk: the PTE of va in the table at root, with missing nodes made if `alloc`. */
    method Walk(root: nat, va: nat, alloc: bool) returns (r: Option<PteAddr>)
      requires Ok() && IsRoot(M(), root) && va < MAXVA
      modifies this
      ensures Ok() && Framed(old(M()), M(), root) && SameMaps(old(M()), M()) && IsRoot(M(), root)
      ensures !alloc ==> M() == old(M()) && free == old(free) && freelist == old(freelist)
      ensures r.Some? <==> HasTable(M(), root, va / PGSIZE)
      ensures r.Some? ==> NodeAt(M(), root, va / PGSIZE, 0) == Some(r.value.page) && r.value.idx == Idx(va / PGSIZE, 0)
      ensures alloc ==> (r.Some? <==> Missing(old(M()), root, va / PGSIZE) <= |old(free)|)
      ensures alloc ==> |free| == if r.Some? then |old(free)| - Missing(old(M()), root, va / PGSIZE) else 0
      ensures OnPaths(old(M()), M(), root, va / PGSIZE, va / PGSIZE)
      ensures NewIn(old(M()), M(), root, va / PGSIZE, if r.Some? then 1 else 0)
    {
      hide Missing, MissingBelow, NewIn, SameMaps, Framed, Tree, Span, Chain, NodeAt, HasTable, Idx, Pre, IsNode,
        IsRoot, IsTable, PageTables.Valid, Ppn, OnPaths;
      var pagetable, level, vpn := root, 2, va / PGSIZE;
      WalkTop(M(), root, vpn);
      SelfFramed(M(), root);
      SelfNewIn(M(), root, vpn);
      PathsSame(M(), M(), root, vpn, vpn);
      MissingAll(M(), root, vpn);
      while level > 0
        invariant NewIn(old(M()), M(), root, vpn, 1) && OnPaths(old(M()), M(), root, vpn, vpn)
        invariant Missing(old(M()), root, vpn) == |old(free)| - |free| + MissingBelow(M(), root, vpn, level)
        invariant 0 <= level <= 2 && Ok() && Framed(old(M()), M(), root) && SameMaps(old(M()), M())
        invariant NodeAt(M(), root, vpn, level) == Some(pagetable) && IsRoot(M(), root)
        invariant !alloc ==> M() == old(M()) && free == old(free) && freelist == old(freelist)
      {
        WalkDown(M(), root, vpn, level);
        MissingDown(M(), root, vpn, level);
        var pte := pages[pagetable].ptes[Idx(vpn, level)];
        if PageTables.Valid(pte) {
          pagetable := Ppn(pte);
        } else {
          if !alloc {
            NewInNone(old(M()), M(), root, vpn);
            return None;
          }
          ghost var m := M();
          pagetable := NewNode(root, vpn, pagetable, level);
          FramedTrans(old(M()), m, M(), root);
          RootsKept(old(M()), m);
          NewInOne(old(M()), m, M(), root, vpn);
          PathsTrans(old(M()), m, M(), root, vpn, vpn);
          MapsTrans(old(M()), m, M());
          if pagetable == 0 {
            NewInNone(old(M()), M(), root, vpn);
            return None;
          }
          MissingNew(M(), root, vpn, level, pagetable);
        }
        level := level - 1;
      }
      WalkEnd(M(), root, vpn);
      MissingEnd(M(), root, vpn);
      r := Some(PteAddr(pagetable, Idx(vpn, 0)));
    }

    /** The part of walk that makes a node: kalloc, memset and the store of the PTE. */
    method NewNode(root: nat, vpn: nat, p: nat, level: nat) returns (c: nat)
      requires Ok() && 1 <= level <= 2 && vpn < MAXVPN && IsRoot(M(), root) && NodeAt(M(), root, vpn, level) == Some(p)
      requires IsTable(M(), p) && !PageTables.Valid(pages[p].ptes[Idx(vpn, level)])
      modifies this
      ensures Ok() && Framed(old(M()), M(), root) && SameMaps(old(M()), M())
      ensures c == 0 ==> M() == old(M()) && free == old(free) == [] && freelist == old(freelist)
      ensures c != 0 ==> IsRoot(M(), root) && NodeAt(M(), root, vpn, level - 1) == Some(c)
      ensures c != 0 ==> |free| == |old(free)| - 1 && c in pages && pages[c] == ZeroTable()
      ensures NewIn(old(M()), M(), root, vpn, 1) && OnPaths(old(M()), M(), root, vpn, vpn)
    {
      hide NewIn, Span, Chain, Tree, Framed, SameMaps, NodeAt, Idx, IsTable, IsNode, IsRoot, Pre, PageTables.Valid,
        CanAdd, ZeroTable, Filled, OnPaths;
      ghost var m, head, list := M(), freelist, free;
      AddHere(m, root, vpn, level, list);
      var i := Idx(vpn, level);
      c := Kalloc();
      if c == 0 {
        SelfFramed(m, root);
        SelfNewIn(m, root, vpn);
        PathsSame(m, M(), root, vpn, vpn);
        return;
      }
      NodeAdded(m, head, list, p, i, root);
      NodeTables(m, head, list, p, i, root, vpn, level);
      NodeFound(m, head, list, p, i, root, vpn, level);
      pages := pages[c := ZeroTable()];
      pages := pages[p := Table(pages[p].ptes[i := c * 1024 + PTE_V])];
      role := role[c := Node(root, role[p].level - 1, role[p].pre * NPTE + i, p)];
      assert M() == Added(m, c, p, i);
      NodeRole(m, p, root, vpn, level);
      PathsNode(m, M(), root, vpn, c, level - 1, p);
    }

    /** *pte, for the PTE that walk found for page vpn. */
    method LoadPte(a: PteAddr, ghost root: nat, ghost vpn: nat) returns (w: nat)
      requires Ok() && IsRoot(M(), root) && vpn < MAXVPN && NodeAt(M(), root, vpn, 0) == Some(a.page)
      requires a.idx == Idx(vpn, 0)
      ensures w == Entry(M(), root, vpn)
    {
      hide Span, Chain, Tree, NodeAt, IsRoot, Idx, Entry;
      LoadOk(M(), root, vpn);
      w := pages[a.page].ptes[a.idx];
    }

    /** *pte = word, for the PTE that walk found for page vpn. */
    method StorePte(a: PteAddr, word: nat, ghost root: nat, ghost vpn: nat)
      requires Ok() && IsRoot(M(), root) && vpn < MAXVPN && NodeAt(M(), root, vpn, 0) == Some(a.page)
      requires a.idx == Idx(vpn, 0)
      modifies this`pages
      ensures Ok() && Stored(old(M()), M(), root, vpn, word) && role == old(role)
    {
      hide Span, Chain, Tree, NodeAt, IsRoot, Idx, Stored;
      StoreOk(M(), root, vpn, word, freelist, free);
      pages := pages[a.page := Table(pages[a.page].ptes[a.idx := word])];
    }

    /** mappages: pages va .. va + size map to consecutive pages from pa. If a node is
        missing and memory is out, only the first n of them do. */
    method MapPages(root: nat, va: nat, size: nat, pa: nat, perm: nat) returns (ok: bool, ghost n: nat)
      requires Ok() && IsRoot(M(), root) && 0 < size && va + size <= MAXVA && perm < 1024
      requires forall v :: va / PGSIZE <= v <= (va + size - 1) / PGSIZE ==> !PageTables.Valid(Entry(M(), root, v))
      modifies this
      ensures Ok() && IsRoot(M(), root) && Framed(old(M()), M(), root)
      ensures Mapped(old(M()), M(), root, va / PGSIZE, n, pa / PGSIZE, perm)
      ensures var all := (va + size - 1) / PGSIZE + 1 - va / PGSIZE; if ok then n == all else n < all && free == []
      ensures forall v :: va / PGSIZE <= v < va / PGSIZE + n ==> HasTable(M(), root, v)
      ensures NewIn(old(M()), M(), root, va / PGSIZE, n)
      ensures n > 0 <==> Missing(old(M()), root, va / PGSIZE) <= |old(free)|
      ensures ok && n == 1 ==> |free| == |old(free)| - Missing(old(M()), root, va / PGSIZE)
      ensures OnPaths(old(M()), M(), root, va / PGSIZE, (va + size - 1) / PGSIZE)
    {
      hide Missing, OnPaths, NewIn, Span, Chain, Tree, NodeAt, IsRoot, Idx, Stored, Mapped, Framed, SameMaps, Entry,
        HasTable, PageTables.Valid, MkPte;
      ghost var m := M();
      ghost var first := va / PGSIZE;
      var a, last, p := va / PGSIZE, (va + size - 1) / PGSIZE, pa / PGSIZE;
      n := 0;
      NoneMapped(m, root, first, p, perm);
      SelfFramed(m, root);
      SelfNewIn(m, root, first);
      PathsSame(m, m, root, first, last);
      while true
        invariant NewIn(m, M(), root, first, n) && OnPaths(m, M(), root, first, last)
        invariant if n > 0 then Missing(m, root, first) <= |old(free)| else M() == m && free == old(free)
        invariant n == 1 ==> |free| == |old(free)| - Missing(m, root, first)
        invariant first <= a <= last < MAXVPN && n == a - first && p == pa / PGSIZE + n
        invariant Ok() && IsRoot(M(), root) && Framed(m, M(), root) && Mapped(m, M(), root, first, n, pa / PGSIZE, perm)
        invariant forall v :: first <= v < a ==> HasTable(M(), root, v)
        decreases last - a
      {
        ghost var m1 := M();
        assert a * PGSIZE / PGSIZE == a;
        var pte := Walk(root, a * PGSIZE, true);
        PathsWider(m1, M(), root, a, first, last);
        PathsTrans(m, m1, M(), root, first, last);
        if pte == None {
          MappedSame(m, m1, M(), root, first, n, pa / PGSIZE, perm);
          MappedRoots(m, m1, root, first, n, pa / PGSIZE, perm);
          NewInTrans(m, m1, M(), root, first, n, 0);
          return false, n;
        }
        ghost var m2 := M();
        var w := LoadPte(pte.value, root, a);
        MappedNext(m, m1, m2, root, first, n, pa / PGSIZE, perm);
        assert !PageTables.Valid(w);
        StorePte(pte.value, MkPte(p, perm), root, a);
        PathsSame(m2, M(), root, first, last);
        PathsTrans(m, m2, M(), root, first, last);
        MappedMore(m, m1, m2, M(), root, first, n, pa / PGSIZE, perm);
        MappedRoots(m, m1, root, first, n, pa / PGSIZE, perm);
        NewInTrans(m, m1, m2, root, first, n, 1);
        MappedTables(m, m1, m2, M(), root, first, n, pa / PGSIZE, perm);
        n := n + 1;
        if a == last {
          return true, n;
        }
        a, p := a + 1, p + 1;
      }
    }

    /** uvmunmap: clears npages PTEs from va and, if asked, frees the pages. */
    method UvmUnmap(root: nat, va: nat, npages: nat, doFree: bool)
      requires Valid() && IsRoot(M(), root) && va % PGSIZE == 0
      requires va / PGSIZE + npages <= (if doFree then USERTOP else MAXVPN)
      requires forall v :: va / PGSIZE <= v < va / PGSIZE + npages ==> HasTable(M(), root, v)
      modifies this
      ensures Valid() && Cleared(old(M()), M(), root, va / PGSIZE, npages, doFree)
      ensures |old(free)| <= |free| <= |old(free)| + npages
    {
      hide Span, Chain, Tree, Own, NodeAt, IsRoot, Idx, Stored, Cleared, Framed, SameMaps, SameTables, Entry,
        HasTable, PageTables.Valid,
        Ppn, Flags, ClearStep;
      ghost var m, first := M(), va / PGSIZE;
      var a, n := va / PGSIZE, 0;
      NoneCleared(m, root, first, doFree);
      while a < va / PGSIZE + npages
        invariant first <= a <= first + npages && n == a - first && |old(free)| <= |free| <= |old(free)| + n
        invariant Valid() && IsRoot(M(), root) && Cleared(m, M(), root, first, n, doFree)
        invariant forall v :: first <= v < first + npages ==> HasTable(M(), root, v)
      {
        ghost var m1 := M();
        var pte := Walk(root, a * PGSIZE, false);
        assert a * PGSIZE / PGSIZE == a;
        var w := LoadPte(pte.value, root, a);
        if !PageTables.Valid(w) {
          ClearedRoot(m, m1, root, first, n, doFree);
          ClearedSkip(m, M(), root, first, n, doFree);
        } else {
          WasMapped(m1, root, a);
          assert Flags(w) != PTE_V;
          ghost var pg := Run(freelist);
          Release(Ppn(w), root, a, doFree);
          ghost var m2 := M();
          StorePte(pte.value, 0, root, a);
          ClearStepMade(m1, m2, M(), root, a, doFree, pg);
          ClearedMore(m, m1, m2, M(), root, first, n, doFree, pg);
          ClearedRoot(m, M(), root, first, n + 1, doFree);
        }
        a, n := a + 1, n + 1;
      }
    }

    /** The page mapped at v goes to the free list, or back into kernel hands. */
    method Release(p: nat, ghost root: nat, ghost v: nat, doFree: bool)
      requires Ok() && IsRoot(M(), root) && v < MAXVPN
      requires (doFree ==> v < USERTOP) && (v < USERTOP ==> p in role && role[p] == Leaf(root, v))
      modifies this
      ensures Ok() && M() == (if v < USERTOP then Let(old(M()), p, doFree, Run(old(freelist))) else old(M()))
      ensures SameMaps(old(M()), M()) && SameTables(old(M()), M())
      ensures IsRoot(M(), root) && NodeAt(M(), root, v, 0) == NodeAt(old(M()), root, v, 0)
      ensures |old(free)| <= |free| <= |old(free)| + 1
    {
      hide Span, Chain, Tree, SameMaps, SameTables, IsRoot, NodeAt;
      ghost var m := M();
      SelfSame(m);
      if v < USERTOP {
        LetTree(m, p, doFree, Run(freelist));
        LetNode(m, p, doFree, Run(freelist), root, v);
        HeldChain(m, p, freelist, free);
        role := role[p := Held];
      }
      if doFree {
        Kfree(p);
        assert M() == Let(m, p, doFree, Run(old(freelist)));
      }
    }

    /** uvmdealloc: brings the process from oldsz down to newsz. */
    method UvmDealloc(root: nat, oldsz: nat, newsz: nat) returns (r: nat)
      requires Valid() && IsRoot(M(), root) && RoundUp(oldsz) <= USERTOP
      requires forall v :: RoundUp(newsz) <= v < RoundUp(oldsz) ==> HasTable(M(), root, v)
      modifies this
      ensures Valid() && r == if newsz >= oldsz then oldsz else newsz
      ensures if newsz >= oldsz then M() == old(M())
              else Cleared(old(M()), M(), root, RoundUp(newsz), RoundUp(oldsz) - RoundUp(newsz), true)
      ensures |free| <= |old(free)| + if newsz >= oldsz then 0 else RoundUp(oldsz) - RoundUp(newsz)
    {
      hide Span, Chain, Tree, Own, IsRoot, Cleared, HasTable;
      if newsz >= oldsz {
        return oldsz;
      }
      NoneCleared(M(), root, RoundUp(newsz), true);
      if RoundUp(newsz) < RoundUp(oldsz) {
        assert RoundUp(newsz) * PGSIZE / PGSIZE == RoundUp(newsz) && RoundUp(newsz) * PGSIZE % PGSIZE == 0;
        UvmUnmap(root, RoundUp(newsz) * PGSIZE, RoundUp(oldsz) - RoundUp(newsz), true);
      }
      return newsz;
    }

    /** uvmalloc: grows the process from oldsz to newsz with zero pages. When memory runs
        out, ok is false, every page it took is free again and only nodes remain. It works
        exactly when there are free pages for the new range and the nodes missing for it;
        where it fails nothing is free but what it gives back. */
    method UvmAlloc(root: nat, oldsz: nat, newsz: nat) returns (r: nat, ghost ok: bool)
      requires Valid() && IsRoot(M(), root) && newsz <= USERTOP * PGSIZE
      requires forall v :: RoundUp(oldsz) <= v < RoundUp(newsz) ==> !PageTables.Valid(Entry(M(), root, v))
      modifies this
      ensures Valid() && r == if newsz < oldsz then oldsz else if ok then newsz else 0
      ensures newsz < oldsz ==> M() == old(M())
      ensures ok && newsz >= oldsz ==>
                var n := if RoundUp(newsz) >= RoundUp(oldsz) then RoundUp(newsz) - RoundUp(oldsz) else 0;
                Gained(old(M()), M(), root, RoundUp(oldsz), n) && ZeroPages(M(), root, RoundUp(oldsz), n)
      ensures !ok ==> newsz >= oldsz && Framed(old(M()), M(), root) && SameMaps(old(M()), M())
      ensures newsz >= oldsz ==>
                var cost := Cost(old(M()), root, Range(RoundUp(oldsz), RoundUp(newsz)), RoundUp(newsz));
                && (ok <==> cost <= |old(free)|)
                && if ok then |free| == |old(free)| - cost else |free| <= RoundUp(newsz) - RoundUp(oldsz)
    {
      hide Span, Chain, Tree, Own, IsRoot, Cleared, HasTable, Gained, ZeroPages, Entry, PageTables.Valid, Framed,
        SameMaps, Missing, OnPaths, Cost, Grows;
      ghost var m, first := M(), RoundUp(oldsz);
      if newsz < oldsz {
        return oldsz, true;
      }
      var a := RoundUp(oldsz);
      ghost var add := Range(first, RoundUp(newsz));
      CostNone(m, root, add, first);
      GrowsNone(m, root, add, first);
      NoneGained(m, root, first);
      NoZeroPages(m, root, first);
      while a * PGSIZE < newsz
        invariant first <= a && (a == first || (a - 1) * PGSIZE < newsz)
        invariant Valid() && IsRoot(M(), root) && Gained(m, M(), root, first, a - first)
        invariant ZeroPages(M(), root, first, a - first)
        invariant |free| == |old(free)| - Cost(m, root, add, a) && Grows(m, M(), root, add, a)
      {
        ghost var m2 := M();
        GrowsMissing(m, m2, root, add, a);
        var done := GrowOne(root, a, m, first);
        if !done {
          CostRises(m, root, add, a + 1, RoundUp(newsz));
          ZeroTables(M(), root, first, a - first);
          assert RoundUp(a * PGSIZE) == a && RoundUp(first * PGSIZE) == first;
          ghost var m1 := M();
          var _ := UvmDealloc(root, a * PGSIZE, RoundUp(oldsz) * PGSIZE);
          if a == first {
            NoneCleared(m1, root, first, true);
          }
          GainUndone(m, m1, M(), root, first, a - first);
          return 0, false;
        }
        GrowsMore(m, m2, M(), root, add, a);
        a := a + 1;
      }
      return newsz, true;
    }

    /** One turn of uvmalloc's loop: page a gets a zero page, or nothing changes but nodes. */
    method GrowOne(root: nat, a: nat, ghost m: Mem, ghost first: nat) returns (ok: bool)
      requires Valid() && IsRoot(m, root) && first <= a < USERTOP && !PageTables.Valid(Entry(m, root, a))
      requires Gained(m, M(), root, first, a - first) && ZeroPages(M(), root, first, a - first)
      modifies this
      ensures Valid() && IsRoot(M(), root)
      ensures var n := if ok then a + 1 - first else a - first;
              Gained(m, M(), root, first, n) && ZeroPages(M(), root, first, n)
      ensures ok <==> Missing(old(M()), root, a) < |old(free)|
      ensures if ok then |free| == |old(free)| - 1 - Missing(old(M()), root, a) && HasTable(M(), root, a)
              else |free| <= 1
      ensures OnPaths(old(M()), M(), root, a, a)
    {
      hide Span, Chain, Tree, Own, IsRoot, HasTable, Gained, ZeroPages, Entry, PageTables.Valid, Framed, SameMaps,
        GainedOne, Filled, NoFlags, Missing, OnPaths;
      ghost var m1 := M();
      GainRoot(m, m1, root, first, a - first, a);
      ZeroPageOk();
      ghost var p;
      ok, p := GainPage(root, a, Filled(0), PTE_URWX);
      if ok {
        GainStep(m, m1, M(), root, first, a - first, p, Filled(0), PTE_URWX);
        GainTable(m1, M(), root, a, p, Filled(0), PTE_URWX);
        ZeroMore(m1, M(), root, first, a - first, p);
      } else {
        GainedFramed(m, m1, M(), root, first, a - first);
        ZeroKept(m1, M(), root, first, a - first);
      }
    }

    /** The part uvmalloc and uvmcopy share: kalloc a page, fill it, map it at page v, and
        give it back if that fails. It works exactly when there is a free page for it and
        for every node v's path lacks. */
    method GainPage(root: nat, v: nat, pg: Page, perm: nat) returns (ok: bool, ghost p: nat)
      requires Valid() && IsRoot(M(), root) && v < USERTOP && !PageTables.Valid(Entry(M(), root, v))
      requires perm < 1024 && !NoFlags(perm) && pg.Bytes? && |pg.data| == PGSIZE
      modifies this
      ensures Valid() && IsRoot(M(), root)
      ensures ok ==> GainedOne(old(M()), M(), root, v, p, pg, perm)
      ensures !ok ==> Framed(old(M()), M(), root) && SameMaps(old(M()), M())
      ensures NewIn(old(M()), M(), root, v, if ok then 1 else 0)
      ensures ok <==> Missing(old(M()), root, v) < |old(free)|
      ensures if ok then |free| == |old(free)| - 1 - Missing(old(M()), root, v) else |free| <= 1
      ensures OnPaths(old(M()), M(), root, v, v)
    {
      hide Missing, OnPaths, NewIn, Span, Chain, Tree, Own, IsRoot, HasTable, Entry, PageTables.Valid, Framed, SameMaps,
        SameTables, GainedOne, Mapped, MkPte, TookPage, Adopted, NoFlags, GainSteps;
      ghost var m1 := M();
      var mem := Kalloc();
      p := mem;
      if mem == 0 {
        SelfFramed(m1, root);
        SelfNewIn(m1, root, v);
        PathsSame(m1, M(), root, v, v);
        return false, 0;
      }
      FillChain(M(), mem, freelist, free, pg);
      pages := pages[mem := pg];
      ghost var m2 := M();
      TookHere(m1, m2, mem, Filled(5), pg);
      TookOk(m1, m2, mem, pg);
      StillFree(m1, m2, root, v);
      MissingKept(m1, m2, root, v, mem, pg);
      PathsSame(m1, m2, root, v, v);
      assert v * PGSIZE / PGSIZE == v && (v * PGSIZE + PGSIZE - 1) / PGSIZE == v && mem * PGSIZE / PGSIZE == mem;
      ghost var n;
      ok, n := MapPages(root, v * PGSIZE, PGSIZE, mem * PGSIZE, perm);
      ghost var m3 := M();
      HeldStill(m2, m3, root, mem);
      PathsTrans(m1, m2, m3, root, v, v);
      MappedRoots(m2, m3, root, v, n, mem, perm);
      if !ok {
        ghost var link := Run(freelist);
        Kfree(mem);
        PathsSame(m3, M(), root, v, v);
        GainFailed(m1, m2, m3, M(), root, v, mem, pg, perm, link);
        NewInGained(m1, m2, m3, M(), root, v, 0);
        MapsRoot(m1, M(), root);
      } else {
        LeafChain(m3, mem, Leaf(root, v), freelist, free);
        role := role[mem := Leaf(root, v)];
        PathsSame(m3, M(), root, v, v);
        AdoptHere(m3, M(), mem, root, v);
        AdoptedOk(m2, m3, M(), root, v, mem, perm);
        MapsRoot(m3, M(), root);
        GainStepsMade(m1, m2, m3, M(), root, v, mem, pg, perm);
        GainMade(m1, m2, m3, M(), root, v, mem, pg, perm);
        NewInGained(m1, m2, m3, M(), root, v, 1);
      }
      PathsTrans(m1, m3, M(), root, v, v);
    }

    /** uvmcreate: an empty table, or 0. */
    method UvmCreate() returns (p: nat)
      requires Valid()
      modifies this
      ensures Valid() && (p == 0 <==> old(free) == []) && (p == 0 ==> M() == old(M()))
      ensures p != 0 ==> TableMade(old(M()), M(), p) && IsRoot(M(), p) && !IsRoot(old(M()), p)
      ensures p != 0 ==> forall k :: IsRoot(old(M()), k) ==> IsRoot(M(), k)
      ensures p != 0 ==> |free| == |old(free)| - 1 && forall v :: Entry(M(), p, v) == 0 && !HasTable(M(), p, v)
      ensures p != 0 ==> forall k, v :: IsRoot(old(M()), k) && 0 <= v < MAXVPN ==>
              Entry(M(), k, v) == Entry(old(M()), k, v) && HasTable(M(), k, v) == HasTable(old(M()), k, v)
    {
      hide Span, Chain, Tree, Own, Entry, IsRoot, HasTable;
      ghost var m := M();
      p := Kalloc();
      if p != 0 {
        FillChain(M(), p, freelist, free, ZeroTable());
        pages := pages[p := ZeroTable()];
        LeafChain(M(), p, Node(p, 2, 0, p), freelist, free);
        role := role[p := Node(p, 2, 0, p)];
        InPages(m, p);
        assert pages == m.pages[p := ZeroTable()] && role == m.role[p := Node(p, 2, 0, p)];
        MadeOk(m, M(), p);
      }
    }

    /** freewalk: frees the node p and every node below it. m0 is memory as it was when
        the whole walk began. */
    method FreeWalk(p: nat, ghost m0: Mem, ghost r: nat, ghost l: nat, ghost pre: nat)
      requires PoolOk() && Tree(m0) && l <= 2 && IsNode(m0, p, r, l, pre) && Intact(m0, M(), r, l, pre)
      requires NoLeaves(m0, r, l, pre)
      modifies this
      ensures PoolOk() && FreedUnder(m0, old(M()), M(), r, l, pre)
      decreases l
    {
      hide Span, Chain, Tree, IsNode, Intact, NoLeaves, FreedUnder, FreedFirst, PageTables.Valid, NoRWX, Ppn, IsTable;
      ghost var m := M();
      FirstNone(m0, m, p, r, l, pre);
      var i := 0;
      while i < NPTE
        invariant 0 <= i <= NPTE && PoolOk() && FreedFirst(m0, m, M(), p, r, l, pre, i)
      {
        FirstStill(m0, m, M(), p, r, l, pre, i);
        var pte := pages[p].ptes[i];
        if PageTables.Valid(pte) && NoRWX(pte) {
          FirstChild(m0, m, M(), p, r, l, pre, i);
          ghost var m1 := M();
          FreeWalk(Ppn(pte), m0, r, l - 1, pre * NPTE + i);
          UnderStill(m0, m1, M(), p, r, l, pre, i);
          NodeChain(m0, m, m1, M(), p, r, l, pre, i, freelist, free);
          ghost var m2 := M();
          pages := pages[p := Table(pages[p].ptes[i := 0])];
          FirstMore(m0, m, m1, m2, M(), p, r, l, pre, i);
        } else {
          if PageTables.Valid(pte) {
            FirstChild(m0, m, M(), p, r, l, pre, i);
            assert false;
          }
          FirstSkip(m0, m, M(), p, r, l, pre, i);
        }
        i := i + 1;
      }
      ghost var m1 := M();
      NodeHeld(m0, m, m1, p, r, l, pre, freelist, free);
      role := role[p := Held];
      ghost var link := Run(freelist);
      Kfree(p);
      assert M() == Mem(m1.lo, m1.hi, m1.pages[p := link], m1.role[p := Free]);
      FirstAll(m0, m, m1, M(), p, r, l, pre, link);
    }

    /** uvmfree: every page of the table, leaf or node, is free again. */
    method UvmFree(root: nat, sz: nat)
      requires Valid() && IsRoot(M(), root) && RoundUp(sz) <= USERTOP
      requires forall v :: 0 <= v < RoundUp(sz) ==> HasTable(M(), root, v)
      requires forall v :: RoundUp(sz) <= v < MAXVPN ==> !PageTables.Valid(Entry(M(), root, v))
      modifies this
      ensures Valid() && TableFreed(old(M()), M(), root)
    {
      hide Span, Chain, Tree, Own, IsRoot, HasTable, Entry, PageTables.Valid, Cleared, TableFreed, NodesFreed,
        FreedUnder, NoLeaves, Intact,
        IsNode;
      ghost var m := M();
      NoneCleared(m, root, 0, true);
      if sz > 0 {
        UvmUnmap(root, 0, RoundUp(sz), true);
      }
      ghost var m1 := M();
      ClearedEmpty(m, m1, root, RoundUp(sz));
      EmptyNoLeaves(m1, root);
      SelfIntact(m1, root);
      FreeWalk(root, m1, root, 2, 0);
      RootUnder(m1, M(), root);
      FreedAll(m, m1, M(), root, RoundUp(sz));
    }

    /** kalloc until nothing is left. */
    method UseUp()
      requires Valid()
      modifies this
      ensures Valid() && free == [] && SameMaps(old(M()), M()) && SameTables(old(M()), M())
    {
      hide Span, Chain, Tree, Own, SameMaps, SameTables, Filled;
      SelfSame(M());
      var p := 1;
      while p != 0
        invariant Valid() && SameMaps(old(M()), M()) && SameTables(old(M()), M()) && (p == 0 ==> free == [])
        decreases |free|, p
      {
        ghost var m := M();
        p := Kalloc();
        if p != 0 {
          TookHere(m, M(), p, Filled(5), Filled(5));
          TookOk(m, M(), p, Filled(5));
          SameTrans(old(M()), m, M());
        }
      }
    }

    /** walkaddr: the page the user sees at va, or 0. */
    method WalkAddr(root: nat, va: nat) returns (p: nat)
      requires Valid() && IsRoot(M(), root)
      modifies this
      ensures Valid() && M() == old(M()) && free == old(free) && freelist == old(freelist)
      ensures p != 0 <==> UserMapped(M(), root, va / PGSIZE)
      ensures p != 0 ==> p == Ppn(Entry(M(), root, va / PGSIZE))
    {
      hide Span, Chain, Tree, Own, IsRoot, HasTable, Entry, NodeAt, Idx, Framed, SameMaps, PageTables.Valid, UserBit,
        Ppn, UserMapped;
      if va >= MAXVA {
        Unmapped(M(), root, va / PGSIZE);
        return 0;
      }
      var pte := Walk(root, va, false);
      if pte == None {
        Unmapped(M(), root, va / PGSIZE);
        return 0;
      }
      var w := LoadPte(pte.value, root, va / PGSIZE);
      MappedIff(M(), root, va / PGSIZE);
      if !PageTables.Valid(w) || !UserBit(w) {
        return 0;
      }
      p := Ppn(w);
    }

    /** copyout: src goes to dstva in the user's memory, page by page; n bytes of it do. */
    method CopyOut(root: nat, dstva: nat, src: seq<Byte>) returns (ok: bool, ghost n: nat)
      requires Valid() && IsRoot(M(), root)
      modifies this
      ensures Valid() && n <= |src| && Copied(old(M()), M(), root, dstva, src[..n])
      ensures ok <==> AllMapped(old(M()), root, dstva, |src|)
      ensures if ok then n == |src|
              else n < |src| && !UserMapped(old(M()), root, (dstva + n) / PGSIZE) && AllMapped(old(M()), root, dstva, n)
    {
      hide Span, Chain, Tree, Own, IsRoot, Entry, SameMaps, Copied, AllMapped, UserMapped, Ppn, Splice, Wrote, IsBytes;
      ghost var m := M();
      var dst, rest := dstva, src;
      n := 0;
      NoneCopied(m, root, dstva);
      NoneMappedYet(m, root, dstva);
      assert src[..0] == [];
      while |rest| > 0
        invariant n <= |src| && dst == dstva + n && rest == src[n..]
        invariant Valid() && IsRoot(M(), root) && Copied(m, M(), root, dstva, src[..n]) && AllMapped(m, root, dstva, n)
        decreases |rest|
      {
        var pa := WalkAddr(root, dst);
        CopiedSame(m, M(), root, dstva, src[..n], dst / PGSIZE);
        if pa == 0 {
          NotAllMapped(m, root, dstva, n, |src|);
          return false, n;
        }
        var off := dst % PGSIZE;
        var k := PGSIZE - off;
        if k > |rest| {
          k := |rest|;
        }
        ghost var m1 := M();
        CopyStep(m, m1, root, dstva, src, n, k, freelist, free);
        pages := pages[pa := Bytes(Splice(pages[pa].data, off, rest[..k]))];
        assert rest[..k] == src[n..n + k];
        MappedChunk(m, root, dst, k);
        MappedJoin(m, root, dstva, n, k);
        dst, rest, n := dst + k, rest[k..], n + k;
      }
      assert src[..n] == src;
      return true, n;
    }

    /** copyin: len bytes of the user's memory from srcva, page by page. */
    method CopyIn(root: nat, srcva: nat, len: nat) returns (ok: bool, d: seq<Byte>)
      requires Valid() && IsRoot(M(), root)
      modifies this
      ensures Valid() && M() == old(M())
      ensures Reads(M(), root, srcva, d) && |d| <= len
      ensures ok <==> AllMapped(M(), root, srcva, len)
      ensures if ok then |d| == len else |d| < len && !UserMapped(M(), root, (srcva + |d|) / PGSIZE)
    {
      hide Span, Chain, Tree, Own, IsRoot, Entry, AllMapped, UserMapped, Ppn, Reads, UserByte;
      ghost var m := M();
      d := [];
      var src, rest := srcva, len;
      NoneRead(m, root, srcva);
      NoneMappedYet(m, root, srcva);
      while rest > 0
        invariant 0 <= rest && |d| + rest == len && src == srcva + |d|
        invariant Valid() && M() == m && Reads(m, root, srcva, d) && AllMapped(m, root, srcva, |d|)
        decreases rest
      {
        var pa := WalkAddr(root, src);
        if pa == 0 {
          NotAllMapped(m, root, srcva, |d|, len);
          return false, d;
        }
        var off := src % PGSIZE;
        var k := PGSIZE - off;
        if k > rest {
          k := rest;
        }
        ReadChunk(m, root, src, k);
        var chunk := pages[pa].data[off..off + k];
        ReadJoin(m, root, srcva, d, chunk);
        MappedChunk(m, root, src, k);
        MappedJoin(m, root, srcva, |d|, k);
        d, src, rest := d + chunk, src + k, rest - k;
      }
      return true, d;
    }

    /** uvmcopy: gives `child` a copy of the pages below sz of `parent`. `at` is the page
        where it stopped. Out of memory, it unmaps what it had mapped, which panics if the
        child has no level-0 table for some page below `at`. */
    method UvmCopy(parent: nat, child: nat, sz: nat) returns (r: Outcome, at: nat)
      requires Valid() && IsRoot(M(), parent) && IsRoot(M(), child) && parent != child && RoundUp(sz) <= USERTOP
      requires forall v :: 0 <= v < RoundUp(sz) ==> HasTable(M(), parent, v)
      requires forall v :: 0 <= v < RoundUp(sz) ==> !PageTables.Valid(Entry(M(), child, v))
      modifies this
      ensures Valid()
      ensures if r == Done then at == RoundUp(sz) else at < RoundUp(sz) && PageTables.Valid(Entry(old(M()), parent, at))
      ensures r == Done ==> Gained(old(M()), M(), child, 0, at) && PagesCopied(old(M()), M(), parent, child, at)
      ensures r == Done ==> forall va :: 0 <= va < at * PGSIZE ==>
              UserByte(M(), child, va) == UserByte(old(M()), parent, va)
      ensures r == Failed ==> Framed(old(M()), M(), child) && SameMaps(old(M()), M())
      ensures r == Done <==> CopyCost(old(M()), parent, child, RoundUp(sz), RoundUp(sz)) <= |old(free)|
      ensures r == Panicked <==> Panics(old(M()), parent, child, RoundUp(sz), |old(free)|)
      ensures r != Done ==> StopsAt(old(M()), parent, child, RoundUp(sz), |old(free)|, at) && |free| <= at + 1
    {
      hide Span, Chain, Tree, Own, IsRoot, HasTable, Entry, PageTables.Valid, Gained, PagesCopied, Covers, Covered,
        GainedOne, Framed,
        SameMaps, NewIn, NodeAt, Idx, Cleared, IsBytes, NoFlags, Flags, Ppn, UserByte, Missing, Panics,
        OnPaths, Cost, Grows, Copies;
      ghost var m0, n := M(), RoundUp(sz);
      ghost var add := Copies(m0, parent, n);
      CostNone(m0, child, add, 0);
      GrowsNone(m0, child, add, 0);
      var i := 0;
      NoneGained(m0, child, 0);
      CoversNone(m0, parent, child);
      while i < RoundUp(sz)
        invariant 0 <= i <= n && Valid()
        invariant Gained(m0, M(), child, 0, i) && PagesCopied(m0, M(), parent, child, i)
        invariant Covers(m0, M(), parent, child, i) && Grows(m0, M(), child, add, i)
        invariant |free| == |old(free)| - Cost(m0, child, add, i)
      {
        ghost var m1 := M();
        ParentPage(m0, m1, parent, child, i);
        assert i * PGSIZE / PGSIZE == i;
        var pte := Walk(parent, i * PGSIZE, false);
        var w := LoadPte(pte.value, parent, i);
        if !PageTables.Valid(w) {
          CopySkip(m0, M(), parent, child, i);
          NotCopied(m0, M(), parent, child, n, i);
        } else {
          ghost var p;
          var ok;
          IsCopied(m0, parent, n, i);
          GrowsMissing(m0, m1, child, add, i);
          ok, p := GainPage(child, i, pages[Ppn(w)], Flags(w));
          if !ok {
            GainedFramed(m0, m1, M(), child, 0, i);
            CopyStuck(m0, m1, M(), parent, child, i);
            r := UndoCopy(parent, child, i, m0);
            PanicsHere(m0, parent, child, n, |old(free)|, i);
            return r, i;
          }
          CopyMore(m0, m1, M(), parent, child, i, p, m1.pages[Ppn(w)], Flags(w));
          GainTable(m1, M(), child, i, p, m1.pages[Ppn(w)], Flags(w));
          GrowsMore(m0, m1, M(), child, add, i);
        }
        i := i + 1;
      }
      ChildReads(m0, M(), parent, child, i);
      NoPanic(m0, parent, child, n, |old(free)|);
      return Done, i;
    }

    /** uvmcopy's error path: uvmunmap(new, 0, i / PGSIZE, 1), with walk's failure in it
        shown as an outcome. */
    method UndoCopy(parent: nat, child: nat, i: nat, ghost m0: Mem) returns (r: Outcome)
      requires Valid() && IsRoot(M(), child) && i < USERTOP && Gained(m0, M(), child, 0, i)
      requires Covers(m0, M(), parent, child, i)
      requires Own(m0) && IsRoot(m0, child) && forall v :: 0 <= v < i ==> !PageTables.Valid(Entry(m0, child, v))
      modifies this
      ensures Valid() && r != Done && (r == Failed ==> Framed(m0, M(), child) && SameMaps(m0, M()))
      ensures r == Panicked <==> exists u :: 0 <= u < i && !Covered(m0, parent, child, u, i)
      ensures |free| <= |old(free)| + i
    {
      hide Span, Chain, Tree, Own, IsRoot, HasTable, Entry, PageTables.Valid, Gained, Covers, Covered, Framed,
        SameMaps, NewIn, NodeAt, Idx,
        Cleared, Missing;
      CoversAll(m0, M(), parent, child, i);
      ghost var m1 := M();
      var a := 0;
      while a < i
        invariant 0 <= a <= i && Valid() && M() == m1 && free == old(free)
        invariant forall u :: 0 <= u < a ==> HasTable(m1, child, u)
      {
        assert a * PGSIZE / PGSIZE == a;
        var pte := Walk(child, a * PGSIZE, false);
        if pte == None {
          return Panicked;
        }
        a := a + 1;
      }
      UvmUnmap(child, 0, i, true);
      GainUndone(m0, m1, M(), child, 0, i);
      return Failed;
    }
  }

  /** A fork that panics, in any machine with eight pages or more: the parent grew by two
      pages and gave back the first, memory is used up, and the child has no tables. */
  method ForkHole(end: nat, stop: nat, ram: map<nat, Page>) returns (k: Memory, r: Outcome)
    requires 0 < end && RoundUp(end) + 8 <= stop / PGSIZE
    requires forall p :: p in ram <==> RoundUp(end) <= p < stop / PGSIZE
    ensures r == Panicked
  {
    hide Span, Chain, Tree, Own, Entry, HasTable, PageTables.Valid, Gained, ZeroPages, Cleared, SameMaps, SameTables,
      Covered, TableMade, IsRoot, Cost, Panics, StopsAt, Range;
    k := new Memory(end, stop, ram);
    var parent := k.UvmCreate();
    assert !PageTables.Valid(0) by { ZeroInvalid(); }
    ghost var ok, m := true, k.M();
    CostBounds(m, parent, Range(0, 2), 2);
    var sz;
    sz, ok := k.UvmAlloc(parent, 0, 2 * PGSIZE);
    ZeroTables(k.M(), parent, 0, 2);
    GainedRoots(m, k.M(), parent, 0, 2);
    ghost var m1 := k.M();
    k.UvmUnmap(parent, 0, 1, true);
    HoleMade(m1, k.M(), parent);
    ghost var m2 := k.M();
    var child := k.UvmCreate();
    HoleForChild(m2, k.M(), parent, child);
    ghost var m3 := k.M();
    k.UseUp();
    HoleKept(m3, k.M(), parent, child);
    HoleFacts(k.M(), parent, child);
    HoleStuck(k.M(), parent, child);
    var at;
    r, at := k.UvmCopy(parent, child, sz);
  }
}
