/** malloc, free and morecore (user/umalloc.c:24-90): a ring of free blocks searched and
    relinked in place, and the program break that sbrk moves (kernel/proc.c:260-279).
    Whether the kernel has pages left to grow the process is a parameter. */
module Heaps {
  import opened Common
  import opened HeapSpec

  /** sizeof(Header), and the least number of units morecore asks for. */
  const HEADER := 16
  const MINCORE := 4096
  const INT31 := 0x8000_0000

  /** Bytes of RAM (kernel/memlayout.h:48), more than which no process can grow to. */
  const RAM := 0x800_0000

  datatype Answer = Refused | Moved(sz: nat)

  /** The int that sbrk gets when morecore passes nu * sizeof(Header). */
  function SbrkArg(nu: nat): int {
    var w := nu * HEADER % UINT32;
    if w >= INT31 then w - UINT32 else w
  }

  /** growproc(n) for a process of sz bytes: sizes are of type uint, uvmalloc does nothing
      when told to shrink, and uvmdealloc when told to grow. */
  function Growproc(sz: nat, n: int, refuse: bool): Answer {
    var newsz := (sz + n) % UINT32;
    if n > 0 then
      if newsz < sz then Moved(sz) else if refuse || newsz > RAM then Refused else Moved(newsz)
    else if n < 0 then Moved(if newsz >= sz then sz else newsz)
    else Moved(sz)
  }

  /** The break ends up above the nu units that morecore takes exactly when their size
      fits an int; without that it stays below the last of them. */
  lemma BreakMoves(brk: nat, nu: nat, refuse: bool)
    requires brk * HEADER <= RAM && 0 < nu < UINT32
    ensures var r := Growproc(brk * HEADER, SbrkArg(nu), refuse);
            r.Moved? ==> r.sz <= RAM && r.sz % HEADER == 0
                         && if nu < INT31 / HEADER then r.sz / HEADER == brk + nu else r.sz / HEADER < brk + nu
  {
    hide SbrkArg;
    ArgIs(nu);
  }

  /** The size itself, or less. */
  lemma ArgIs(nu: nat)
    requires nu < UINT32
    ensures SbrkArg(nu) % HEADER == 0 && -INT31 <= SbrkArg(nu) < INT31
    ensures if nu < INT31 / HEADER then SbrkArg(nu) == nu * HEADER else SbrkArg(nu) < nu * HEADER
  {
  }

  /** The first byte at brk is on a page of a process of sz bytes. */
  predicate Reaches(brk: nat, sz: nat) {
    brk * HEADER < (sz + PGSIZE - 1) / PGSIZE * PGSIZE
  }

  /** morecore's store of the new header at the break faults, and the process is killed:
      sbrk did not refuse, but the page is not there. */
  predicate Faults(brk: nat, nu: nat, refuse: bool) {
    var g := Growproc(brk * HEADER, SbrkArg(nu), refuse);
    g.Moved? && !Reaches(brk, g.sz)
  }

  lemma NoFault(brk: nat, nu: nat, refuse: bool)
    requires brk * HEADER <= RAM && 0 < nu < INT31 / HEADER
    ensures !Faults(brk, nu, refuse)
  {
    hide SbrkArg, Growproc;
    BreakMoves(brk, nu, refuse);
  }

  /** Step from freep's successor round to freep itself. */
  function Dist(n: nat, f: nat, i: nat): nat
    requires f < n && i < n
  {
    if i > f then i - f - 1 else i + n - f - 1
  }

  lemma DistNext(n: nat, f: nat, i: nat)
    requires f < n && i < n && i != f
    ensures Nxt(n, i) < n && Dist(n, f, Nxt(n, i)) == Dist(n, f, i) + 1 < n
    ensures forall j :: 0 <= j < n && j != i && Dist(n, f, j) < Dist(n, f, i) + 1 ==> Dist(n, f, j) < Dist(n, f, i)
  {
  }

  ghost predicate SomeFits(a: Arena, n: nat) {
    exists i :: 0 < i < |a.list| && a.list[i] in a.hdr && a.hdr[a.list[i]].size >= n
  }

  /** Nodes after freep (index f) and before index i are too small. */
  ghost predicate NoneBefore(a: Arena, f: nat, i: nat, n: nat)
    requires f < |a.list| && i < |a.list|
  {
    forall j :: 0 <= j < |a.list| && a.list[j] in a.hdr && Dist(|a.list|, f, j) < Dist(|a.list|, f, i) ==>
      a.hdr[a.list[j]].size < n
  }

  lemma NoneStart(a: Arena, f: nat, n: nat)
    requires f < |a.list|
    ensures Nxt(|a.list|, f) < |a.list| && NoneBefore(a, f, Nxt(|a.list|, f), n)
  {
  }

  lemma NoneNext(a: Arena, f: nat, i: nat, n: nat)
    requires f < |a.list| && i < |a.list| && i != f && a.list[i] in a.hdr && a.hdr[a.list[i]].size < n
    requires NoneBefore(a, f, i, n)
    ensures Nxt(|a.list|, i) < |a.list| && NoneBefore(a, f, Nxt(|a.list|, i), n)
  {
    DistNext(|a.list|, f, i);
  }

  lemma NoneAtAll(a: Arena, f: nat, n: nat)
    requires f < |a.list| && NoneBefore(a, f, f, n) && a.list[f] in a.hdr && a.hdr[a.list[f]].size < n
    ensures !SomeFits(a, n)
  {
    forall j | 0 < j < |a.list| && a.list[j] in a.hdr ensures a.hdr[a.list[j]].size < n {
      if j != f {
        assert Dist(|a.list|, f, j) < Dist(|a.list|, f, f);
      }
    }
  }

  lemma {:induction false} FindSpot(a: Arena, b: nat, t: nat) returns (r: nat)
    requires Ring(a) && t < |a.list| && a.list[t] < b && b !in a.list
    ensures Spot(a, r, b)
    decreases |a.list| - t
  {
    if t + 1 < |a.list| && a.list[t + 1] < b {
      r := FindSpot(a, b, t + 1);
    } else {
      r := t;
    }
  }

  /** free's loop test: it stops at the place of b and nowhere else. */
  lemma SpotTest(a: Arena, t: nat, b: nat, i: nat)
    requires Ring(a) && Spot(a, t, b) && i < |a.list| && b > a.base && b !in a.list
    ensures a.list[i] in a.hdr
    ensures var p, q := a.list[i], a.hdr[a.list[i]].ptr;
            && q == a.list[Nxt(|a.list|, i)]
            && ((b > p && b < q) || (p >= q && (b > p || b < q)) <==> i == t)
  {
    assert LinkOk(a, i);
  }

  function Core(nu: nat): (n: nat)
    ensures n >= nu && n >= MINCORE && (n == nu || n == MINCORE)
  {
    if nu < MINCORE then MINCORE else nu
  }

  lemma LiveAll(a: Arena)
    requires Ok(a)
    ensures forall s :: s in a.live ==> s in a.hdr
  {
    hide Ring, Tiles;
  }

  lemma GrantedNew(a: Arena, g: nat, n: nat, junk: nat)
    requires Ok(a) && Above(a, g)
    ensures g !in a.live && g !in a.list && g > 0
    ensures Granted(a, g, n, junk).live - {g} == a.live
    ensures Granted(a, g, n, junk).tile.Keys == a.tile.Keys + Fresh(g, n).Keys
  {
    hide Ring, Tiles, Fresh;
    NotListed(a, g);
    if g in a.live {
      LiveFacts(a, g);
      AboveBlocks(a, g, g);
    }
  }

  lemma FitsLess(a: Arena, n: nat, m: nat)
    requires SomeFits(a, n) && m <= n
    ensures SomeFits(a, m)
  {
  }

  lemma FreepNotZero(a: Arena, p: nat)
    requires Ok(a) && p in a.list
    ensures p != 0
  {
    hide Live, Tiles, Linked;
  }

  /** Units for nbytes and a header. */
  function NUnits(nbytes: nat): (n: nat)
    ensures n >= 1 && nbytes <= (n - 1) * HEADER < nbytes + HEADER
  {
    (nbytes + HEADER - 1) / HEADER + 1
  }

  /** The ring with base alone. */
  function Start(base: nat, hdr: map<nat, Header>): Arena {
    Arena(base, hdr[base := Header(base, 0)], [base], map[], map[])
  }

  lemma StartOk(base: nat, hdr: map<nat, Header>)
    requires base > 0
    ensures Ok(Start(base, hdr)) && Coalesced(Start(base, hdr))
  {
  }

  lemma NothingFits(a: Arena, n: nat)
    requires a.list == []
    ensures !SomeFits(a, n)
  {
  }

  lemma StartSame(a: Arena, a': Arena, n: nat, brk: nat)
    requires a' == Start(a.base, a.hdr) && a.tile == map[] && a.list == [] && n > 0
    ensures !SomeFits(a', n) && (Above(a, brk) <==> Above(a', brk))
  {
  }

  lemma SameAbove(a: Arena, a': Arena, brk: nat)
    requires a'.base == a.base && a'.tile.Keys == a.tile.Keys
    ensures Above(a', brk) <==> Above(a, brk)
  {
    assert forall u :: u in a'.tile <==> u in a'.tile.Keys;
    assert forall u :: u in a.tile <==> u in a.tile.Keys;
  }

  /** After n units from g on are added, all units lie below brk exactly when these do. */
  lemma AboveGrown(a: Arena, a': Arena, g: nat, n: nat, brk: nat)
    requires Above(a, g) && n > 0 && a'.base == a.base && a'.tile.Keys == a.tile.Keys + Fresh(g, n).Keys
    ensures Above(a', brk) <==> g + n <= brk
  {
    assert forall u :: u in a'.tile <==> u in a'.tile.Keys;
    if Above(a', brk) {
      assert g + n - 1 in Fresh(g, n).Keys;
    }
  }

  ghost function IndexOf(a: Arena, p: nat): (i: nat)
    requires p in a.list
    ensures i < |a.list| && a.list[i] == p
  {
    var i :| 0 <= i < |a.list| && a.list[i] == p;
    i
  }

  function Prv(n: nat, i: nat): nat
    requires i < n
  {
    if i == 0 then n - 1 else i - 1
  }

  lemma PrevOfNext(n: nat, i: nat)
    requires i < n
    ensures Nxt(n, i) < n && Prv(n, Nxt(n, i)) == i
  {
  }

  lemma NodeFacts(a: Arena, i: nat)
    requires Ok(a) && i < |a.list|
    ensures a.list[i] in a.hdr && Nxt(|a.list|, i) < |a.list| && a.hdr[a.list[i]].ptr == a.list[Nxt(|a.list|, i)]
    ensures a.list[Prv(|a.list|, i)] in a.hdr && (a.hdr[a.list[i]].size > 0 <==> i > 0)
  {
    hide Live, Tiles, Rising;
    assert LinkOk(a, i);
  }

  lemma FirstNode(a: Arena, f: nat, n: nat)
    requires Ok(a) && f < |a.list|
    ensures a.list[f] in a.hdr && Nxt(|a.list|, f) < |a.list| && a.hdr[a.list[f]].ptr == a.list[Nxt(|a.list|, f)]
    ensures a.list[Nxt(|a.list|, f)] in a.hdr && Prv(|a.list|, Nxt(|a.list|, f)) == f
    ensures NoneBefore(a, f, Nxt(|a.list|, f), n)
  {
    hide Ok, NoneBefore;
    NodeFacts(a, f);
    NodeFacts(a, Nxt(|a.list|, f));
    NoneStart(a, f, n);
  }

  lemma SameNode(a: Arena, i: nat, f: nat)
    requires Ok(a) && i < |a.list| && f < |a.list|
    ensures a.list[i] == a.list[f] <==> i == f
  {
    hide Live, Tiles, Linked, Sized;
  }

  lemma FitHere(a: Arena, i: nat, n: nat)
    requires Ok(a) && i < |a.list| && a.list[i] in a.hdr && a.hdr[a.list[i]].size >= n && n > 0
    ensures i > 0 && SomeFits(a, n)
  {
    hide Live, Tiles, Linked, Rising;
  }

  lemma TakeFacts(a: Arena, i: nat)
    requires Ok(a) && 0 < i < |a.list|
    ensures a.list[i] !in a.live && a.list[i - 1] !in a.live && a.list[i] != a.list[i - 1] && a.list[i] in a.hdr
    ensures a.list[i - 1] in a.hdr
  {
    hide Tiles, Linked;
  }

  lemma UnlinkedPrev(a: Arena, i: nat)
    requires Ok(a) && 0 < i < |a.list|
    ensures a.list[i - 1] in Without(a.list, i)
  {
    assert Without(a.list, i)[i - 1] == a.list[i - 1];
  }

  lemma RetileKeys(tile: map<nat, nat>, s: nat, n: nat, t: nat)
    ensures Retile(tile, s, n, t).Keys == tile.Keys
  {
  }

  lemma CutTake(a: Arena, i: nat, n: nat)
    requires Ok(a) && 0 < i < |a.list| && a.list[i] in a.hdr && 0 < n < a.hdr[a.list[i]].size
    ensures var s := a.list[i] + a.hdr[a.list[i]].size - n; s !in a.live && s != a.list[i] && s !in a.list
  {
    hide Ring, Live, Tiles;
    CutFresh(a, i, a.list[i] + a.hdr[a.list[i]].size - n);
  }

  class Heap {
    const base: nat
    var hdr: map<nat, Header>
    var freep: nat
    var brk: nat
    ghost var list: seq<nat>
    ghost var live: map<nat, nat>
    ghost var tile: map<nat, nat>

    ghost function A(): Arena
      reads this
    {
      Arena(base, hdr, list, live, tile)
    }

    /** Before the first malloc there is nothing; then the ring is there. */
    ghost predicate Valid()
      reads this
    {
      && base > 0 && brk * HEADER <= RAM
      && if freep == 0 then live == map[] && tile == map[] && list == [] else Ok(A()) && Coalesced(A()) && freep in list
    }

    /** Everything the allocator has handed out or keeps lies below the program break. */
    ghost predicate Backed()
      reads this
    {
      Above(A(), brk)
    }

    /** A process whose data ends below the break. */
    constructor (b: nat, top: nat)
      requires 0 < b < top && top * HEADER <= RAM
      ensures Valid() && Backed() && base == b && brk == top && live == map[] && tile == map[] && list == []
    {
      base, hdr, freep, brk := b, map[], 0, top;
      list, live, tile := [], map[], map[];
    }

    /** sbrk of n units' worth of bytes, by morecore or by the program itself. */
    method Sbrk(n: int, refuse: bool) returns (r: Answer)
      requires Valid() && -INT31 <= n < INT31 && n % HEADER == 0
      modifies this`brk
      ensures Valid() && r == Growproc(old(brk) * HEADER, n, refuse)
      ensures brk * HEADER == if r.Moved? then r.sz else old(brk) * HEADER
      ensures n >= 0 && old(Backed()) ==> Backed()
    {
      r := Growproc(brk * HEADER, n, refuse);
      if r.Moved? {
        brk := r.sz / HEADER;
      }
    }

    /** free: the live block whose first unit ap points at goes back on the ring. */
    method Free(ap: nat)
      requires Valid() && freep != 0 && ap > 0 && ap - 1 in live
      modifies this
      ensures Valid() && freep != 0 && live == old(live) - {ap - 1} && tile.Keys == old(tile).Keys
      ensures brk == old(brk) && Backed() == old(Backed())
      ensures forall s :: s in live ==> s in hdr && s in old(hdr) && hdr[s] == old(hdr)[s]
      ensures SomeFits(A(), old(live)[ap - 1])
    {
      hide Ok, ApartBut, Spot, FreeArena;
      var bp := ap - 1;
      ghost var a := A();
      var p;
      ghost var t;
      p, t := FindPlace(bp);
      FreeArenaOk(a, t, bp);
      if bp + hdr[bp].size == hdr[p].ptr {
        hdr := hdr[bp := Header(hdr[hdr[p].ptr].ptr, hdr[bp].size + hdr[hdr[p].ptr].size)];
      } else {
        hdr := hdr[bp := Header(hdr[p].ptr, hdr[bp].size)];
      }
      if p + hdr[p].size == bp {
        hdr := hdr[p := Header(hdr[bp].ptr, hdr[p].size + hdr[bp].size)];
      } else {
        hdr := hdr[p := Header(bp, hdr[p].size)];
      }
      freep := p;
      ghost var a' := FreeArena(a, t, bp);
      assert hdr == a'.hdr;
      list, live, tile := a'.list, a'.live, a'.tile;
      assert A() == a';
      SameAbove(a, a', brk);
    }

    /** free's search: the node after which bp belongs. */
    method FindPlace(bp: nat) returns (p: nat, ghost t: nat)
      requires Valid() && freep != 0 && bp in live
      ensures Spot(A(), t, bp) && p == list[t]
    {
      hide Ring, Live, Tiles, ApartBut;
      ghost var a := A();
      LiveFacts(a, bp);
      t := FindSpot(a, bp, 0);
      p := freep;
      ghost var i :| 0 <= i < |list| && list[i] == p;
      SpotTest(a, t, bp, i);
      while !(bp > p && bp < hdr[p].ptr)
        invariant 0 <= i < |list| && list[i] == p && p in hdr
        decreases if i <= t then t - i else |list| - i + t
      {
        SpotTest(a, t, bp, i);
        if p >= hdr[p].ptr && (bp > p || bp < hdr[p].ptr) {
          break;
        }
        i := Nxt(|list|, i);
        p := hdr[p].ptr;
        SpotTest(a, t, bp, i);
      }
      SpotTest(a, t, bp, i);
    }

    /** morecore: nu units or MINCORE, from the break on, go on the ring. The break is
        above them afterwards exactly when sbrk got their true size. When the store of the
        header faults, the process is no longer alive. */
    method Morecore(nu0: nat, refuse: bool) returns (r: nat, alive: bool)
      requires Valid() && Backed() && freep != 0 && 0 < nu0 < UINT32
      modifies this
      ensures Valid() && freep != 0 && live == old(live)
      ensures alive <==> !Faults(old(brk), Core(nu0), refuse)
      ensures nu0 < INT31 / HEADER ==> alive
      ensures r == 0 <==> !alive || Growproc(old(brk) * HEADER, SbrkArg(Core(nu0)), refuse) == Refused
      ensures alive ==> (Backed() <==> r == 0 || nu0 < INT31 / HEADER)
      ensures r == 0 ==> A() == old(A()) && freep == old(freep) && (alive ==> brk == old(brk))
      ensures r != 0 || !alive ==> Growproc(old(brk) * HEADER, SbrkArg(Core(nu0)), refuse) == Moved(brk * HEADER)
      ensures r != 0 ==>
              r == freep && SomeFits(A(), nu0) && tile.Keys == old(tile).Keys + Fresh(old(brk), Core(nu0)).Keys
      ensures forall s :: s in live ==> s in hdr && s in old(hdr) && hdr[s] == old(hdr)[s]
    {
      hide Ring, Live, Tiles, ApartBut, SomeFits, Fresh, Growproc, SbrkArg, Above, Reaches;
      LiveAll(A());
      ghost var a := A();
      var nu := if nu0 < MINCORE then MINCORE else nu0;
      var hp := brk;
      BreakMoves(hp, nu, refuse);
      ArgIs(nu);
      if nu < INT31 / HEADER {
        NoFault(hp, nu, refuse);
      }
      var got := Sbrk(SbrkArg(nu), refuse);
      if got == Refused {
        return 0, true;
      }
      if !Reaches(hp, got.sz) {
        return 0, false;
      }
      AddUnits(hp, nu);
      AboveGrown(a, A(), hp, nu, brk);
      FitsLess(A(), nu, nu0);
      r, alive := freep, true;
      FreepNotZero(A(), freep);
    }

    /** morecore's use of what sbrk gave: a block of nu units at hp, which is then freed. */
    method AddUnits(hp: nat, nu: nat)
      requires Valid() && freep != 0 && Above(A(), hp) && nu > 0
      modifies this
      ensures Valid() && freep != 0 && live == old(live) && brk == old(brk) && SomeFits(A(), nu)
      ensures tile.Keys == old(tile).Keys + Fresh(hp, nu).Keys
      ensures forall s :: s in live ==> s in hdr && s in old(hdr) && hdr[s] == old(hdr)[s]
    {
      hide Ring, Live, Tiles, ApartBut, SomeFits, Fresh, Above;
      ghost var a := A();
      LiveAll(a);
      ghost var junk := if hp in hdr then hdr[hp].ptr else 0;
      GrantedOk(a, hp, nu, junk);
      GrantedNew(a, hp, nu, junk);
      hdr := hdr[hp := Header(if hp in hdr then hdr[hp].ptr else 0, nu)];
      live, tile := live[hp := nu], tile + Fresh(hp, nu);
      assert A() == Granted(a, hp, nu, junk);
      Free(hp + 1);
    }

    /** malloc: first fit from after freep on, else a block from morecore. What it hands
        out lies below the break exactly unless morecore's request did not fit an int. It
        returns unless that request made morecore fault. */
    method Malloc(nbytes: nat, refuse: bool) returns (r: nat, alive: bool)
      requires Valid() && Backed() && nbytes < UINT32
      modifies this
      ensures Valid() && freep != 0
      ensures alive <==> SomeFits(old(A()), NUnits(nbytes)) || !Faults(old(brk), Core(NUnits(nbytes)), refuse)
      ensures nbytes <= INT31 - 2 * HEADER ==> alive
      ensures r == 0 <==>
              !alive || (!SomeFits(old(A()), NUnits(nbytes))
                         && Growproc(old(brk) * HEADER, SbrkArg(Core(NUnits(nbytes))), refuse) == Refused)
      ensures alive ==>
              (Backed() <==> r == 0 || SomeFits(old(A()), NUnits(nbytes)) || nbytes <= INT31 - 2 * HEADER)
      ensures r == 0 ==> live == old(live) && tile == old(tile) && (alive ==> brk == old(brk))
      ensures r == 0 && old(freep) != 0 ==> A() == old(A()) && freep == old(freep)
      ensures r != 0 || !alive ==>
                if SomeFits(old(A()), NUnits(nbytes)) then brk == old(brk)
                else Growproc(old(brk) * HEADER, SbrkArg(Core(NUnits(nbytes))), refuse) == Moved(brk * HEADER)
      ensures r != 0 ==> r > 0 && r - 1 !in old(live) && live == old(live)[r - 1 := NUnits(nbytes)]
      ensures r != 0 ==>
                tile.Keys == old(tile).Keys + if SomeFits(old(A()), NUnits(nbytes)) then {}
                  else Fresh(old(brk), Core(NUnits(nbytes))).Keys
      ensures forall s :: s in old(live) ==> s in hdr && s in old(hdr) && hdr[s] == old(hdr)[s]
    {
      hide Ok, ApartBut, SomeFits, NoneBefore, Fresh, Above, Nxt, Dist, Core, Growproc, SbrkArg,
        Faults;
      var nunits := (nbytes + HEADER - 1) / HEADER + 1;
      ghost var first, top := A(), brk;
      if freep == 0 {
        NothingFits(first, nunits);
        StartOk(base, hdr);
        hdr := hdr[base := Header(base, 0)];
        freep := base;
        list := [base];
        assert A() == Start(base, first.hdr);
        StartSame(first, A(), nunits, brk);
      }
      ghost var a, fp := A(), freep;
      LiveAll(a);
      ghost var f: nat := IndexOf(a, freep);
      FirstNode(a, f, nunits);
      var prevp := freep;
      var p := hdr[prevp].ptr;
      ghost var i: nat, grown := Nxt(|list|, f), false;
      while true
        invariant Valid() && freep != 0 && live == a.live && f < |list| && list[f] == freep && i < |list|
        invariant list[i] == p && p in hdr
        invariant NoneBefore(A(), f, i, nunits) && prevp == list[Prv(|list|, i)]
        invariant !grown ==> A() == a && freep == fp && brk == top && Backed()
        invariant grown ==>
                  !Faults(top, Core(nunits), refuse)
                  && Growproc(top * HEADER, SbrkArg(Core(nunits)), refuse) == Moved(brk * HEADER)
                  && SomeFits(A(), nunits) && !SomeFits(a, nunits) && (Backed() <==> nunits < INT31 / HEADER)
                  && tile.Keys == a.tile.Keys + Fresh(top, Core(nunits)).Keys
        invariant forall s :: s in a.live ==> s in hdr && s in a.hdr && hdr[s] == a.hdr[s]
        decreases !grown, |list| - Dist(|list|, f, i)
      {
        NodeFacts(A(), i);
        if hdr[p].size >= nunits {
          FitHere(A(), i, nunits);
          r := Take(i, prevp, p, nunits);
          alive := true;
          return;
        }
        NodeFacts(A(), f);
        if p == freep {
          SameNode(A(), i, f);
          NoneAtAll(A(), f, nunits);
          p, alive := Morecore(nunits, refuse);
          if !alive {
            return 0, false;
          }
          if p == 0 {
            return 0, true;
          }
          grown := true;
          f := IndexOf(A(), freep);
          i := f;
          FirstNode(A(), f, nunits);
        } else {
          SameNode(A(), i, f);
          NoneNext(A(), f, i, nunits);
          DistNext(|list|, f, i);
        }
        NodeFacts(A(), i);
        PrevOfNext(|list|, i);
        i := Nxt(|list|, i);
        prevp, p := p, hdr[p].ptr;
        NodeFacts(A(), i);
      }
    }

    /** malloc's use of node i, which is big enough: all of it, or its tail. */
    method Take(ghost i: nat, prevp: nat, p: nat, nunits: nat) returns (r: nat)
      requires Valid() && freep != 0 && 0 < i < |list| && list[i] == p && list[i - 1] == prevp && nunits > 0
      requires p in hdr && prevp in hdr && hdr[p].size >= nunits
      modifies this
      ensures Valid() && freep != 0 && r > 0 && r - 1 !in old(live) && live == old(live)[r - 1 := nunits]
      ensures tile.Keys == old(tile).Keys && brk == old(brk) && Backed() == old(Backed())
      ensures forall s :: s in old(live) ==> s in hdr && s in old(hdr) && hdr[s] == old(hdr)[s]
    {
      hide Ok, ApartBut, Above;
      ghost var a := A();
      if hdr[p].size == nunits {
        TakeWhole(i, prevp, p);
        r := p;
      } else {
        r := TakeTail(i, prevp, p, nunits);
      }
      freep := prevp;
      FreepNotZero(A(), prevp);
      SameAbove(a, A(), brk);
      r := r + 1;
    }

    method TakeWhole(ghost i: nat, prevp: nat, p: nat)
      requires Valid() && freep != 0 && 0 < i < |list| && list[i] == p && list[i - 1] == prevp
      requires p in hdr && prevp in hdr
      modifies this`hdr, this`list, this`live
      ensures Ok(A()) && Coalesced(A()) && prevp in list && p !in old(live) && live == old(live)[p := old(hdr)[p].size]
      ensures forall s :: s in old(live) ==> s in hdr && s in old(hdr) && hdr[s] == old(hdr)[s]
    {
      hide Ring, Live, Tiles, ApartBut, Without;
      ghost var a := A();
      LiveAll(a);
      TakeFacts(a, i);
      UnlinkedOk(a, i);
      list, live := Without(list, i), live[p := hdr[p].size];
      hdr := hdr[prevp := Header(hdr[p].ptr, hdr[prevp].size)];
      assert A() == Unlinked(a, i);
      UnlinkedPrev(a, i);
    }

    method TakeTail(ghost i: nat, prevp: nat, p: nat, nunits: nat) returns (r: nat)
      requires Valid() && freep != 0 && 0 < i < |list| && list[i] == p && list[i - 1] == prevp && nunits > 0
      requires p in hdr && prevp in hdr && hdr[p].size > nunits
      modifies this`hdr, this`live, this`tile
      ensures Ok(A()) && Coalesced(A()) && prevp in list && r !in old(live) && live == old(live)[r := nunits]
      ensures tile.Keys == old(tile).Keys
      ensures forall s :: s in old(live) ==> s in hdr && s in old(hdr) && hdr[s] == old(hdr)[s]
    {
      hide Ring, Live, Tiles, ApartBut, Retile;
      ghost var a := A();
      LiveAll(a);
      TakeFacts(a, i);
      CutTake(a, i, nunits);
      hdr := hdr[p := Header(hdr[p].ptr, hdr[p].size - nunits)];
      r := p + hdr[p].size;
      ghost var junk := if r in hdr then hdr[r].ptr else 0;
      CutOk(a, i, nunits, junk);
      hdr := hdr[r := Header(if r in hdr then hdr[r].ptr else 0, nunits)];
      live, tile := live[r := nunits], Retile(tile, r, nunits, r);
      assert A() == Cut(a, i, nunits, junk);
      RetileKeys(a.tile, r, nunits, r);
    }
  }

  /** malloc(0x7fffffff) in a fresh process: the kernel is told to shrink it, whatever
      memory it has, and leaves the break alone. If the break is at the start of a page, as
      exec leaves it, the process is killed; if not, malloc returns a block that the
      process does not have. */
  method HugeRequest(b: nat, top: nat, refuse: bool) returns (h: Heap, r: nat, alive: bool)
    requires 0 < b < top && top * HEADER <= RAM
    ensures h.Valid() && h.brk == top && (alive <==> top * HEADER % PGSIZE != 0)
    ensures alive ==> !h.Backed() && r != 0 && h.live == map[r - 1 := NUnits(0x7fff_ffff)]
  {
    hide Growproc, SbrkArg, Core, NUnits, Faults, SomeFits, Ok;
    h := new Heap(b, top);
    NothingFits(h.A(), NUnits(0x7fff_ffff));
    HugeArg(top, refuse);
    r, alive := h.Malloc(0x7fff_ffff, refuse);
  }

  lemma HugeArg(top: nat, refuse: bool)
    requires top * HEADER <= RAM && 0 < top
    ensures Growproc(top * HEADER, SbrkArg(Core(NUnits(0x7fff_ffff))), refuse) == Moved(top * HEADER)
    ensures Faults(top, Core(NUnits(0x7fff_ffff)), refuse) <==> top * HEADER % PGSIZE == 0
  {
    assert SbrkArg(Core(NUnits(0x7fff_ffff))) == -0x7fff_fff0;
    PageEnd(top * HEADER);
  }

  lemma PageEnd(sz: nat)
    ensures sz < (sz + PGSIZE - 1) / PGSIZE * PGSIZE <==> sz % PGSIZE != 0
  {
  }
}
