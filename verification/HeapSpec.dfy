/** The K&R allocator's memory (user/umalloc.c; section 8.7 of The C Programming Language,
    2nd ed.): block headers linked into a ring in address order through `base`, live
    blocks, and which block each unit belongs to. Addresses count units of one header. */
module HeapSpec {

  datatype Header = Header(ptr: nat, size: nat)

  /** `list` is the ring from base on, `live` the sizes of allocated blocks, and `tile`
      maps every unit obtained from sbrk to the block it is in; these are bookkeeping. */
  datatype Arena = Arena(base: nat, hdr: map<nat, Header>, list: seq<nat>, live: map<nat, nat>, tile: map<nat, nat>)

  function Nxt(n: nat, i: nat): nat {
    if i + 1 < n then i + 1 else 0
  }

  function Size(a: Arena, s: nat): nat
    requires s in a.hdr
  {
    a.hdr[s].size
  }

  ghost predicate Rising(l: seq<nat>) {
    forall i, j :: 0 <= i < j < |l| ==> l[i] < l[j]
  }

  ghost predicate Headed(a: Arena) {
    forall i :: 0 <= i < |a.list| ==> a.list[i] in a.hdr
  }

  ghost predicate Linked(a: Arena)
    requires Headed(a)
  {
    forall i :: 0 <= i < |a.list| ==> LinkOk(a, i)
  }

  ghost predicate Sized(a: Arena)
    requires Headed(a)
  {
    forall i :: 0 <= i < |a.list| ==> (a.hdr[a.list[i]].size == 0 <==> i == 0)
  }

  /** The ring: base first, addresses rising, each node pointing at the next. */
  ghost predicate Ring(a: Arena) {
    && |a.list| > 0 && a.list[0] == a.base && a.base > 0
    && Rising(a.list) && Headed(a) && Linked(a) && Sized(a)
  }

  ghost predicate LinkOk(a: Arena, i: nat)
    requires i < |a.list| && a.list[i] in a.hdr
  {
    a.hdr[a.list[i]].ptr == a.list[Nxt(|a.list|, i)]
  }

  ghost predicate Live(a: Arena) {
    forall s :: s in a.live ==> s in a.hdr && a.hdr[s].size == a.live[s] && a.live[s] > 0 && s > a.base && s !in a.list
  }

  ghost predicate IsFree(a: Arena, s: nat) {
    s in a.list && s != a.base
  }

  /** Every block's units are its own, and every unit is in a block. */
  ghost predicate Tiles(a: Arena) {
    && (forall s: nat :: IsBlock(a, s) ==> BlockTiled(a, s))
    && (forall u: nat :: u in a.tile ==> UnitOk(a, u))
  }

  ghost predicate IsBlock(a: Arena, s: nat) {
    (IsFree(a, s) || s in a.live) && s in a.hdr
  }

  ghost predicate BlockTiled(a: Arena, s: nat)
    requires s in a.hdr
  {
    forall u: nat :: s <= u < s + a.hdr[s].size ==> u in a.tile && a.tile[u] == s
  }

  ghost predicate UnitOk(a: Arena, u: nat)
    requires u in a.tile
  {
    a.base < u && IsBlock(a, a.tile[u]) && a.tile[u] <= u < a.tile[u] + a.hdr[a.tile[u]].size
  }

  ghost predicate Ok(a: Arena) {
    Ring(a) && Live(a) && Tiles(a)
  }

  /** Free blocks i and i + 1 do not touch. */
  ghost predicate Apart(a: Arena, i: nat)
    requires Ring(a) && i + 1 < |a.list|
  {
    a.list[i] + Size(a, a.list[i]) < a.list[i + 1]
  }

  /** No two neighbours touch, except perhaps those at x and y. */
  ghost predicate ApartBut(a: Arena, x: int, y: int)
    requires Ring(a)
  {
    forall i :: 0 <= i < |a.list| - 1 && i != x && i != y ==> Apart(a, i)
  }

  ghost predicate Coalesced(a: Arena)
    requires Ring(a)
  {
    ApartBut(a, -1, -1)
  }

  /** Two blocks share no unit. */
  lemma Disjoint(a: Arena, s: nat, t: nat)
    requires Ok(a) && IsBlock(a, s) && IsBlock(a, t) && s < t
    ensures s + Size(a, s) <= t
  {
    BlockSize(a, t);
    hide Ring, Live;
    assert BlockTiled(a, s) && BlockTiled(a, t);
    assert t in a.tile && a.tile[t] == t;
  }

  lemma BlockSize(a: Arena, s: nat)
    requires Ok(a) && IsBlock(a, s)
    ensures Size(a, s) > 0
  {
    hide Tiles;
    if s !in a.live {
      var i :| 0 <= i < |a.list| && a.list[i] == s;
    }
  }

  // ---- Putting a live block on the ring ----

  /** Live block b goes between nodes t and t + 1. */
  function Inserted(a: Arena, t: nat, b: nat): Arena
    requires t < |a.list| && a.list[t] in a.hdr && b in a.hdr
  {
    Arena(a.base,
          a.hdr[b := Header(a.hdr[a.list[t]].ptr, a.hdr[b].size)][a.list[t] := Header(b, a.hdr[a.list[t]].size)],
          a.list[..t + 1] + [b] + a.list[t + 1..], a.live - {b}, a.tile)
  }

  ghost predicate Spot(a: Arena, t: nat, b: nat) {
    t < |a.list| && a.list[t] < b && (t + 1 < |a.list| ==> b < a.list[t + 1])
  }

  lemma InsertedAt(a: Arena, t: nat, b: nat)
    requires t < |a.list| && a.list[t] in a.hdr && b in a.hdr
    ensures var a' := Inserted(a, t, b);
            && |a'.list| == |a.list| + 1 && a'.list[t + 1] == b
            && (forall i :: 0 <= i <= t ==> a'.list[i] == a.list[i])
            && (forall i :: t + 1 < i < |a'.list| ==> a'.list[i] == a.list[i - 1])
            && (forall s :: s in a'.list <==> s in a.list || s == b)
  {
    var a' := Inserted(a, t, b);
    assert a.list == a.list[..t + 1] + a.list[t + 1..];
  }

  lemma InsertedRising(l: seq<nat>, t: nat, b: nat)
    requires Rising(l) && t < |l| && l[t] < b && (t + 1 < |l| ==> b < l[t + 1])
    ensures Rising(l[..t + 1] + [b] + l[t + 1..])
  {
    var m := l[..t + 1] + [b] + l[t + 1..];
    forall i, j | 0 <= i < j < |m| ensures m[i] < m[j] {
      var x, y := if i <= t then i else i - 1, if j <= t then j else j - 1;
      assert i != t + 1 ==> m[i] == l[x];
      assert j != t + 1 ==> m[j] == l[y];
    }
  }

  lemma InsertedLinked(a: Arena, t: nat, b: nat)
    requires t < |a.list| && Headed(a) && Linked(a) && b in a.hdr && b !in a.list && Rising(a.list)
    ensures Headed(Inserted(a, t, b)) && Linked(Inserted(a, t, b))
  {
    hide Inserted, Rising;
    InsertedAt(a, t, b);
    InsertedHdr(a, t, b);
    var a' := Inserted(a, t, b);
    forall i | 0 <= i < |a'.list| ensures a'.list[i] in a'.hdr && LinkOk(a', i) {
      if i < t {
        assert LinkOk(a, i);
        OneIndex(a.list, i, t);
      } else if i <= t + 1 {
        assert LinkOk(a, t);
      } else {
        assert LinkOk(a, i - 1);
        OneIndex(a.list, i - 1, t);
      }
    }
  }

  lemma OneIndex(l: seq<nat>, i: nat, j: nat)
    requires Rising(l) && i < |l| && j < |l|
    ensures l[i] == l[j] <==> i == j
  {
  }

  lemma InsertedRing(a: Arena, t: nat, b: nat)
    requires Ok(a) && b in a.live && Spot(a, t, b)
    ensures a.list[t] in a.hdr && b in a.hdr && Ring(Inserted(a, t, b))
  {
    hide Tiles, Inserted, Rising, Linked;
    InSpot(a, t, b);
    InsertedAt(a, t, b);
    InsertedHdr(a, t, b);
    InsertedRising(a.list, t, b);
    InsertedLinked(a, t, b);
    InsertedList(a, t, b);
  }

  lemma InsertedList(a: Arena, t: nat, b: nat)
    requires t < |a.list| && a.list[t] in a.hdr && b in a.hdr
    ensures Inserted(a, t, b).list == a.list[..t + 1] + [b] + a.list[t + 1..]
  {
  }

  lemma InsertedHdr(a: Arena, t: nat, b: nat)
    requires t < |a.list| && a.list[t] in a.hdr && b in a.hdr && b != a.list[t]
    ensures var a' := Inserted(a, t, b);
            && a'.base == a.base && a'.tile == a.tile && a'.live == a.live - {b} && a'.hdr.Keys == a.hdr.Keys
            && a'.hdr[b] == Header(a.hdr[a.list[t]].ptr, a.hdr[b].size)
            && a'.hdr[a.list[t]] == Header(b, a.hdr[a.list[t]].size)
            && (forall s :: s in a.hdr && s != b && s != a.list[t] ==> a'.hdr[s] == a.hdr[s])
            && (forall s :: s in a.hdr ==> a'.hdr[s].size == a.hdr[s].size)
  {
  }

  lemma InsertedTiles(a: Arena, t: nat, b: nat)
    requires Ok(a) && b in a.live && Spot(a, t, b)
    ensures a.list[t] in a.hdr && b in a.hdr && Live(Inserted(a, t, b)) && Tiles(Inserted(a, t, b))
  {
    hide Inserted, Ring;
    InSpot(a, t, b);
    InsertedAt(a, t, b);
    InsertedHdr(a, t, b);
    var a' := Inserted(a, t, b);
    forall s: nat ensures IsBlock(a', s) <==> IsBlock(a, s) {
    }
    forall s: nat | IsBlock(a', s) ensures BlockTiled(a', s) {
      assert BlockTiled(a, s);
    }
    forall u: nat | u in a'.tile ensures UnitOk(a', u) {
      assert UnitOk(a, u);
    }
  }

  lemma InSpot(a: Arena, t: nat, b: nat)
    requires Ring(a) && Live(a) && b in a.live && Spot(a, t, b)
    ensures a.list[t] in a.hdr && b in a.hdr && b != a.base
  {
  }

  lemma InsertedOk(a: Arena, t: nat, b: nat)
    requires Ok(a) && Coalesced(a) && b in a.live && Spot(a, t, b)
    ensures a.list[t] in a.hdr && b in a.hdr && Ok(Inserted(a, t, b)) && ApartBut(Inserted(a, t, b), t, t + 1)
  {
    hide Inserted, Live, Tiles;
    InSpot(a, t, b);
    InsertedRing(a, t, b);
    InsertedTiles(a, t, b);
    InsertedAt(a, t, b);
    InsertedHdr(a, t, b);
    var a' := Inserted(a, t, b);
    forall i | 0 <= i < |a'.list| - 1 && i != t && i != t + 1 ensures Apart(a', i) {
      if i < t {
        assert Apart(a, i);
      } else {
        assert Apart(a, i - 1);
      }
    }
  }

  lemma InsertedGap(a: Arena, t: nat, b: nat, i: nat)
    requires Ok(a) && b in a.live && Spot(a, t, b) && (i == t || i == t + 1) && i < |a.list|
    ensures i == t ==> a.list[t] + Size(a, a.list[t]) <= b
    ensures i == t + 1 ==> b + Size(a, b) <= a.list[t + 1]
  {
    if i == t && t > 0 {
      Disjoint(a, a.list[t], b);
    }
    if i == t + 1 {
      Disjoint(a, b, a.list[t + 1]);
    }
  }

  // ---- Joining neighbours ----

  function Retile(tile: map<nat, nat>, s: nat, n: nat, t: nat): map<nat, nat> {
    map u | u in tile :: if s <= u < s + n then t else tile[u]
  }

  /** The list without node i. */
  function Without(l: seq<nat>, i: nat): seq<nat>
    requires i < |l|
  {
    l[..i] + l[i + 1..]
  }

  lemma WithoutAt(l: seq<nat>, i: nat)
    requires i < |l| && Rising(l)
    ensures var m := Without(l, i);
            && |m| == |l| - 1 && (forall j :: 0 <= j < i ==> m[j] == l[j])
            && (forall j :: i <= j < |m| ==> m[j] == l[j + 1])
            && (forall s :: s in m <==> s in l && s != l[i]) && Rising(m)
  {
    var m := Without(l, i);
    forall s | s in l && s != l[i] ensures s in m {
      var j :| 0 <= j < |l| && l[j] == s;
      if j < i {
        assert m[j] == s;
      } else {
        assert m[j - 1] == s;
      }
    }
    forall j, k | 0 <= j < k < |m| ensures m[j] < m[k] {
      var x, y := if j < i then j else j + 1, if k < i then k else k + 1;
      assert m[j] == l[x] && m[k] == l[y];
    }
  }

  /** Node i takes over node i + 1, which it touches. */
  function Merged(a: Arena, i: nat): Arena
    requires i + 1 < |a.list| && a.list[i] in a.hdr && a.list[i + 1] in a.hdr
  {
    var p, q := a.list[i], a.list[i + 1];
    Arena(a.base, a.hdr[p := Header(a.hdr[q].ptr, a.hdr[p].size + a.hdr[q].size)], Without(a.list, i + 1), a.live,
          Retile(a.tile, q, a.hdr[q].size, p))
  }

  ghost predicate Touch(a: Arena, i: nat) {
    Ring(a) && 0 < i && i + 1 < |a.list| && a.list[i] + Size(a, a.list[i]) == a.list[i + 1]
  }

  lemma MergedHdr(a: Arena, i: nat)
    requires i + 1 < |a.list| && a.list[i] in a.hdr && a.list[i + 1] in a.hdr
    ensures var a', p, q := Merged(a, i), a.list[i], a.list[i + 1];
            && a'.base == a.base && a'.live == a.live && a'.hdr.Keys == a.hdr.Keys
            && a'.list == Without(a.list, i + 1)
            && a'.hdr[p] == Header(a.hdr[q].ptr, a.hdr[p].size + a.hdr[q].size)
            && (forall s :: s in a.hdr && s != p ==> a'.hdr[s] == a.hdr[s])
            && a'.tile.Keys == a.tile.Keys
            && (forall u :: u in a.tile ==> a'.tile[u] == if q <= u < q + a.hdr[q].size then p else a.tile[u])
  {
  }

  lemma MergedRing(a: Arena, i: nat)
    requires Touch(a, i)
    ensures Ring(Merged(a, i))
  {
    hide Merged, Rising, Without;
    MergedHdr(a, i);
    WithoutAt(a.list, i + 1);
    var a', n := Merged(a, i), |a.list|;
    forall j | 0 <= j < |a'.list|
      ensures a'.list[j] in a'.hdr && LinkOk(a', j) && (a'.hdr[a'.list[j]].size == 0 <==> j == 0) {
      var x := if j <= i then j else j + 1;
      assert a'.list[j] == a.list[x];
      OneIndex(a.list, x, i);
      assert LinkOk(a, x) && LinkOk(a, i + 1);
    }
  }

  lemma MergedTiles(a: Arena, i: nat)
    requires Ok(a) && Touch(a, i)
    ensures Live(Merged(a, i)) && Tiles(Merged(a, i))
  {
    hide Ring, Touch, Merged, Without, BlockTiled, UnitOk;
    TouchFacts(a, i);
    MergedHdr(a, i);
    WithoutAt(a.list, i + 1);
    var a', p, q := Merged(a, i), a.list[i], a.list[i + 1];
    assert IsBlock(a, p) && IsBlock(a, q) && BlockTiled(a, p) && BlockTiled(a, q);
    forall s: nat | IsBlock(a', s) ensures BlockTiled(a', s) {
      assert IsBlock(a, s) && s != q && BlockTiled(a, s);
      MergedBlock(a, i, s);
    }
    forall u: nat | u in a'.tile ensures UnitOk(a', u) {
      assert UnitOk(a, u);
      MergedUnit(a, i, u);
    }
  }

  lemma TouchFacts(a: Arena, i: nat)
    requires Touch(a, i)
    ensures i + 1 < |a.list| && a.list[i] in a.hdr && a.list[i + 1] in a.hdr && a.list[i] < a.list[i + 1]
    ensures Rising(a.list)
    ensures a.list[i] != a.base && a.list[i + 1] != a.base && a.list[i] + Size(a, a.list[i]) == a.list[i + 1]
  {
  }

  lemma MergedBlock(a: Arena, i: nat, s: nat)
    requires i + 1 < |a.list| && a.list[i] in a.hdr && a.list[i + 1] in a.hdr
    requires a.list[i] + Size(a, a.list[i]) == a.list[i + 1]
    requires s in a.hdr && s != a.list[i + 1] && BlockTiled(a, s) && BlockTiled(a, a.list[i])
    requires BlockTiled(a, a.list[i + 1])
    ensures s in Merged(a, i).hdr && BlockTiled(Merged(a, i), s)
  {
    hide Merged, Without;
    MergedHdr(a, i);
    var a', p, q := Merged(a, i), a.list[i], a.list[i + 1];
    forall u: nat | s <= u < s + a'.hdr[s].size ensures u in a'.tile && a'.tile[u] == s {
      assert u < s + a.hdr[s].size ==> a.tile[u] == s;
      assert q <= u < q + a.hdr[q].size ==> a.tile[u] == q;
    }
  }

  lemma MergedUnit(a: Arena, i: nat, u: nat)
    requires i + 1 < |a.list| && a.list[i] in a.hdr && a.list[i + 1] in a.hdr
    requires a.list[i] + Size(a, a.list[i]) == a.list[i + 1]
    requires Rising(a.list) && u in a.tile && UnitOk(a, u) && BlockTiled(a, a.list[i + 1]) && a.list[i] != a.base
    ensures u in Merged(a, i).tile && UnitOk(Merged(a, i), u)
  {
    hide Merged, Without, Rising;
    MergedHdr(a, i);
    WithoutAt(a.list, i + 1);
    OneIndex(a.list, i, i + 1);
    assert a.list[i] in a.list;
  }

  lemma MergedApart(a: Arena, i: nat, x: int)
    requires Touch(a, i) && x < i && ApartBut(a, x, i) && Ring(Merged(a, i))
    ensures ApartBut(Merged(a, i), x, x)
  {
    hide Merged, Rising, Without, Linked, Sized;
    MergedHdr(a, i);
    WithoutAt(a.list, i + 1);
    var a' := Merged(a, i);
    forall j | 0 <= j < |a'.list| - 1 && j != x ensures Apart(a', j) {
      var y := if j <= i then j else j + 1;
      OneIndex(a.list, y, i);
      if j < i {
        assert Apart(a, j);
      } else {
        assert Apart(a, j + 1);
      }
    }
  }

  // ---- Taking a block off the ring ----

  /** Node i, all of it, becomes live. */
  function Unlinked(a: Arena, i: nat): Arena
    requires 0 < i < |a.list| && a.list[i] in a.hdr && a.list[i - 1] in a.hdr
  {
    var o, p := a.list[i - 1], a.list[i];
    Arena(a.base, a.hdr[o := Header(a.hdr[p].ptr, a.hdr[o].size)], Without(a.list, i), a.live[p := a.hdr[p].size],
      a.tile)
  }

  lemma UnlinkedOk(a: Arena, i: nat)
    requires Ok(a) && Coalesced(a) && 0 < i < |a.list|
    ensures a.list[i] in a.hdr && a.list[i - 1] in a.hdr && Ok(Unlinked(a, i)) && Coalesced(Unlinked(a, i))
  {
    hide Rising, Without;
    WithoutAt(a.list, i);
    var a', o, p := Unlinked(a, i), a.list[i - 1], a.list[i];
    OneIndex(a.list, i, i - 1);
    OneIndex(a.list, i, 0);
    UnlinkedRing(a, i);
    UnlinkedTiles(a, i);
    forall j | 0 <= j < |a'.list| - 1 ensures Apart(a', j) {
      if j < i - 1 {
        assert Apart(a, j);
      } else if j == i - 1 {
        assert Apart(a, j) && Apart(a, j + 1);
      } else {
        assert Apart(a, j + 1);
      }
    }
  }

  lemma UnlinkedRing(a: Arena, i: nat)
    requires Ring(a) && 0 < i < |a.list|
    ensures Ring(Unlinked(a, i))
  {
    hide Rising, Without;
    WithoutAt(a.list, i);
    var a' := Unlinked(a, i);
    forall j | 0 <= j < |a'.list|
      ensures a'.list[j] in a'.hdr && LinkOk(a', j) && (a'.hdr[a'.list[j]].size == 0 <==> j == 0) {
      var x := if j < i then j else j + 1;
      assert a'.list[j] == a.list[x];
      OneIndex(a.list, x, i - 1);
      assert LinkOk(a, x) && LinkOk(a, i);
    }
  }

  lemma UnlinkedTiles(a: Arena, i: nat)
    requires Ok(a) && 0 < i < |a.list|
    ensures Live(Unlinked(a, i)) && Tiles(Unlinked(a, i))
  {
    hide Rising, Without, Linked;
    WithoutAt(a.list, i);
    var a', o, p := Unlinked(a, i), a.list[i - 1], a.list[i];
    OneIndex(a.list, i, i - 1);
    OneIndex(a.list, i, 0);
    assert a.base < p by { BaseLeast(a, i); }
    forall s: nat ensures IsBlock(a', s) <==> IsBlock(a, s) {
    }
    SameTiles(a, a');
  }

  /** The same blocks of the same sizes tile the same units. */
  lemma SameTiles(a: Arena, a': Arena)
    requires Tiles(a) && a'.base == a.base && a'.tile == a.tile && forall s: nat :: IsBlock(a', s) <==> IsBlock(a, s)
    requires forall s: nat :: IsBlock(a, s) ==> s in a'.hdr && a'.hdr[s].size == a.hdr[s].size
    ensures Tiles(a')
  {
    forall s: nat | IsBlock(a', s) ensures BlockTiled(a', s) {
      assert BlockTiled(a, s);
    }
    forall u: nat | u in a'.tile ensures UnitOk(a', u) {
      assert UnitOk(a, u);
    }
  }

  lemma BaseLeast(a: Arena, i: nat)
    requires Ring(a) && 0 < i < |a.list|
    ensures a.base < a.list[i]
  {
  }

  /** The last n units of node i become a live block. */
  function Cut(a: Arena, i: nat, n: nat, junk: nat): Arena
    requires i < |a.list| && a.list[i] in a.hdr && n < a.hdr[a.list[i]].size
  {
    var p := a.list[i];
    var s := p + a.hdr[p].size - n;
    Arena(a.base, a.hdr[p := Header(a.hdr[p].ptr, a.hdr[p].size - n)][s := Header(junk, n)], a.list, a.live[s := n],
          Retile(a.tile, s, n, s))
  }

  lemma CutOk(a: Arena, i: nat, n: nat, junk: nat)
    requires Ok(a) && Coalesced(a) && 0 < i < |a.list| && 0 < n < Size(a, a.list[i])
    ensures Ok(Cut(a, i, n, junk)) && Coalesced(Cut(a, i, n, junk))
  {
    hide Rising;
    var a', p := Cut(a, i, n, junk), a.list[i];
    var s := p + a.hdr[p].size - n;
    CutFresh(a, i, s);
    CutRing(a, i, n, junk);
    CutTiles(a, i, n, junk);
    forall j | 0 <= j < |a'.list| - 1 ensures Apart(a', j) {
      assert Apart(a, j);
      assert a.list[j] != s;
    }
  }

  /** A unit inside a free block is no block's start. */
  lemma CutFresh(a: Arena, i: nat, s: nat)
    requires Ok(a) && 0 < i < |a.list| && a.list[i] < s < a.list[i] + Size(a, a.list[i])
    ensures s !in a.list && s !in a.live && s > a.base
  {
    hide Linked;
    BaseLeast(a, i);
    var p := a.list[i];
    assert IsBlock(a, p) && BlockTiled(a, p);
    assert s in a.tile && a.tile[s] == p;
    if s in a.list || s in a.live {
      assert IsBlock(a, s);
      BlockSize(a, s);
    }
  }

  lemma CutRing(a: Arena, i: nat, n: nat, junk: nat)
    requires Ok(a) && 0 < i < |a.list| && 0 < n < Size(a, a.list[i])
    ensures Ring(Cut(a, i, n, junk))
  {
    hide Rising, Tiles;
    var a', p := Cut(a, i, n, junk), a.list[i];
    var s := p + a.hdr[p].size - n;
    CutFresh(a, i, s);
    forall j | 0 <= j < |a'.list|
      ensures a'.list[j] in a'.hdr && LinkOk(a', j) && (a'.hdr[a'.list[j]].size == 0 <==> j == 0) {
      assert LinkOk(a, j) && a.list[j] != s;
      OneIndex(a.list, j, i);
    }
  }

  lemma CutHdr(a: Arena, i: nat, n: nat, junk: nat)
    requires i < |a.list| && a.list[i] in a.hdr && 0 < n < a.hdr[a.list[i]].size
    ensures var a', p := Cut(a, i, n, junk), a.list[i];
            var s := p + a.hdr[p].size - n;
            && a'.base == a.base && a'.list == a.list && a'.live == a.live[s := n] && a'.hdr.Keys == a.hdr.Keys + {s}
            && a'.hdr[p] == Header(a.hdr[p].ptr, a.hdr[p].size - n) && a'.hdr[s] == Header(junk, n)
            && (forall t :: t in a.hdr && t != p && t != s ==> a'.hdr[t] == a.hdr[t])
            && a'.tile.Keys == a.tile.Keys
            && (forall u :: u in a.tile ==> a'.tile[u] == if s <= u < s + n then s else a.tile[u])
  {
  }

  lemma CutTiles(a: Arena, i: nat, n: nat, junk: nat)
    requires Ok(a) && 0 < i < |a.list| && 0 < n < Size(a, a.list[i])
    ensures Live(Cut(a, i, n, junk)) && Tiles(Cut(a, i, n, junk))
  {
    hide Ring, Cut, BlockTiled, UnitOk;
    RingHead(a, i);
    var a', p := Cut(a, i, n, junk), a.list[i];
    var s := p + a.hdr[p].size - n;
    CutHdr(a, i, n, junk);
    CutFresh(a, i, s);
    assert IsBlock(a, p) && BlockTiled(a, p);
    forall t: nat | IsBlock(a', t) ensures BlockTiled(a', t) {
      assert t != s ==> IsBlock(a, t) && BlockTiled(a, t);
      CutBlock(a, i, n, junk, t);
    }
    forall u: nat | u in a'.tile ensures UnitOk(a', u) {
      assert UnitOk(a, u);
      CutUnit(a, i, n, junk, u);
    }
  }

  lemma CutBlock(a: Arena, i: nat, n: nat, junk: nat, t: nat)
    requires i < |a.list| && a.list[i] in a.hdr && 0 < n < Size(a, a.list[i]) && BlockTiled(a, a.list[i])
    requires var s := a.list[i] + Size(a, a.list[i]) - n; t != s ==> t in a.hdr && BlockTiled(a, t)
    ensures t in Cut(a, i, n, junk).hdr && BlockTiled(Cut(a, i, n, junk), t)
  {
    hide Cut;
    CutHdr(a, i, n, junk);
    var a', p := Cut(a, i, n, junk), a.list[i];
    var s := p + a.hdr[p].size - n;
    forall u: nat | t <= u < t + a'.hdr[t].size ensures u in a'.tile && a'.tile[u] == t {
      assert t != s ==> a.tile[u] == t;
      assert s <= u < s + n ==> a.tile[u] == p;
    }
  }

  lemma CutUnit(a: Arena, i: nat, n: nat, junk: nat, u: nat)
    requires i < |a.list| && a.list[i] in a.hdr && 0 < n < Size(a, a.list[i]) && u in a.tile && UnitOk(a, u)
    requires BlockTiled(a, a.list[i])
    requires var s := a.list[i] + Size(a, a.list[i]) - n; s !in a.live && s !in a.list
    ensures u in Cut(a, i, n, junk).tile && UnitOk(Cut(a, i, n, junk), u)
  {
    hide Cut;
    CutHdr(a, i, n, junk);
  }

  lemma RingHead(a: Arena, i: nat)
    requires Ring(a) && 0 < i < |a.list|
    ensures a.list[i] in a.hdr && a.list[i] != a.base && a.base < a.list[i] && Size(a, a.list[i]) > 0
  {
  }

  // ---- Units from sbrk ----

  function Fresh(g: nat, n: nat): (t: map<nat, nat>)
    ensures forall u :: u in t <==> g <= u < g + n
    ensures forall u :: u in t ==> t[u] == g
  {
    if n == 0 then map[] else Fresh(g, n - 1)[g + n - 1 := g]
  }

  /** Units g .. g + n, new from sbrk, as one live block. */
  function Granted(a: Arena, g: nat, n: nat, junk: nat): Arena {
    Arena(a.base, a.hdr[g := Header(junk, n)], a.list, a.live[g := n], a.tile + Fresh(g, n))
  }

  /** g lies above everything the allocator has. */
  ghost predicate Above(a: Arena, g: nat) {
    a.base < g && forall u :: u in a.tile ==> u < g
  }

  lemma AboveBlocks(a: Arena, g: nat, s: nat)
    requires Ok(a) && Above(a, g) && IsBlock(a, s)
    ensures s + Size(a, s) <= g
  {
    hide Ring, Live;
    BlockSize(a, s);
    assert BlockTiled(a, s);
    var u := s + Size(a, s) - 1;
    assert u in a.tile;
  }

  lemma GrantedOk(a: Arena, g: nat, n: nat, junk: nat)
    requires Ok(a) && Coalesced(a) && Above(a, g) && n > 0
    ensures Ok(Granted(a, g, n, junk)) && Coalesced(Granted(a, g, n, junk)) && g in Granted(a, g, n, junk).live
  {
    hide Rising;
    var a' := Granted(a, g, n, junk);
    assert g !in a.list by { NotListed(a, g); }
    assert g !in a.live by { if g in a.live { AboveBlocks(a, g, g); BlockSize(a, g); } }
    forall j | 0 <= j < |a'.list|
      ensures a'.list[j] in a'.hdr && LinkOk(a', j) && (a'.hdr[a'.list[j]].size == 0 <==> j == 0) {
      assert LinkOk(a, j) && a.list[j] != g;
    }
    GrantedTiles(a, g, n, junk);
    forall j | 0 <= j < |a'.list| - 1 ensures Apart(a', j) {
      assert Apart(a, j) && a.list[j] != g;
    }
  }

  lemma NotListed(a: Arena, g: nat)
    requires Ok(a) && Above(a, g)
    ensures g !in a.list
  {
    hide Linked, Rising;
    if g in a.list {
      AboveBlocks(a, g, g);
      BlockSize(a, g);
    }
  }

  lemma GrantedTiles(a: Arena, g: nat, n: nat, junk: nat)
    requires Ok(a) && Above(a, g) && n > 0 && g !in a.list && g !in a.live
    ensures Live(Granted(a, g, n, junk)) && Tiles(Granted(a, g, n, junk))
  {
    hide Ring, BlockTiled, UnitOk, Fresh;
    var a' := Granted(a, g, n, junk);
    forall s: nat | IsBlock(a', s) ensures BlockTiled(a', s) {
      if s != g {
        assert IsBlock(a, s) && BlockTiled(a, s);
        AboveBlocks(a, g, s);
      }
      GrantedBlock(a, g, n, junk, s);
    }
    forall u: nat | u in a'.tile ensures UnitOk(a', u) {
      if u in a.tile {
        assert UnitOk(a, u);
      }
      GrantedUnit(a, g, n, junk, u);
    }
  }

  lemma GrantedBlock(a: Arena, g: nat, n: nat, junk: nat, s: nat)
    requires s != g ==> s in a.hdr && BlockTiled(a, s) && s + a.hdr[s].size <= g
    ensures s in Granted(a, g, n, junk).hdr && BlockTiled(Granted(a, g, n, junk), s)
  {
  }

  lemma GrantedUnit(a: Arena, g: nat, n: nat, junk: nat, u: nat)
    requires a.base < g && g !in a.list && u in Granted(a, g, n, junk).tile && (u in a.tile ==> UnitOk(a, u))
    requires g !in a.live
    requires forall v :: v in a.tile ==> v < g
    ensures UnitOk(Granted(a, g, n, junk), u)
  {
  }

  // ---- free ----

  /** What free makes of live block b, whose place is after node t: on the ring, joined
      with the node after it and the node before it where they touch. */
  function FreedWith(a: Arena, t: nat, b: nat): Arena
    requires t < |a.list| && a.list[t] in a.hdr && b in a.hdr && (t + 1 < |a.list| ==> a.list[t + 1] in a.hdr)
    requires b != a.list[t]
  {
    InsertedAt(a, t, b);
    var a1 := Inserted(a, t, b);
    if t + 1 < |a.list| && b + a.hdr[b].size == a.list[t + 1] then Merged(a1, t + 1) else a1
  }

  lemma FreedRight(a: Arena, t: nat, b: nat)
    requires Ok(a) && Coalesced(a) && b in a.live && Spot(a, t, b)
    ensures a.list[t] in a.hdr && b in a.hdr && (t + 1 < |a.list| ==> a.list[t + 1] in a.hdr)
    ensures Ok(FreedWith(a, t, b)) && ApartBut(FreedWith(a, t, b), t, t)
    ensures var a2 := FreedWith(a, t, b);
            && a2.base == a.base && t + 1 < |a2.list| && a2.list[t] == a.list[t] && a2.list[t + 1] == b
            && a2.hdr[a.list[t]].size == a.hdr[a.list[t]].size
            && a2.live == a.live - {b} && a2.tile.Keys == a.tile.Keys && a2.hdr[b].size >= a.hdr[b].size
  {
    hide Inserted, Merged, Live, Tiles, Rising, Linked, Sized;
    InSpot(a, t, b);
    InsertedAt(a, t, b);
    InsertedHdr(a, t, b);
    InsertedOk(a, t, b);
    var a1 := Inserted(a, t, b);
    if t + 1 < |a.list| {
      InsertedGap(a, t, b, t + 1);
      if b + a.hdr[b].size == a.list[t + 1] {
        MergedRing(a1, t + 1);
        MergedTiles(a1, t + 1);
        MergedApart(a1, t + 1, t);
        MergedHdr(a1, t + 1);
        RingRising(a1);
        WithoutAt(a1.list, t + 2);
        OneIndex(a1.list, t, t + 1);
      }
    }
  }

  lemma RingRising(a: Arena)
    requires Ring(a)
    ensures Rising(a.list)
  {
  }

  function Freed(a: Arena, t: nat, b: nat): Arena
    requires t + 1 < |a.list| && a.list[t] in a.hdr && a.list[t + 1] in a.hdr
  {
    if a.list[t] + a.hdr[a.list[t]].size == b then Merged(a, t) else a
  }

  lemma FreedLeft(a: Arena, t: nat, b: nat)
    requires Ok(a) && ApartBut(a, t, t) && t + 1 < |a.list| && a.list[t + 1] == b && a.list[t] + Size(a, a.list[t]) <= b
    ensures Ok(Freed(a, t, b)) && Coalesced(Freed(a, t, b))
    ensures var a' := Freed(a, t, b);
            && a'.base == a.base && t < |a'.list| && a'.list[t] == a.list[t] && a'.live == a.live
            && a'.tile.Keys == a.tile.Keys
            && exists i :: 0 < i < |a'.list| && a'.list[i] in a'.hdr && a'.hdr[a'.list[i]].size >= a.hdr[b].size
  {
    hide Merged, Live, Tiles, Rising, Linked;
    if a.list[t] + a.hdr[a.list[t]].size == b {
      RingRising(a);
      OneIndex(a.list, t, t + 1);
      assert t > 0;
      MergedRing(a, t);
      MergedTiles(a, t);
      MergedApart(a, t, -1);
      MergedHdr(a, t);
      WithoutAt(a.list, t + 1);
      assert Freed(a, t, b).list[t] == a.list[t];
    } else {
      assert Apart(a, t);
      assert a.list[t + 1] in a.hdr;
    }
  }

  lemma LiveFacts(a: Arena, b: nat)
    requires Ok(a) && b in a.live
    ensures b in a.hdr && b > a.base && b !in a.list && a.hdr[b].size == a.live[b] > 0 && a.list[0] < b
    ensures a.list[0] in a.hdr
  {
    hide Tiles;
  }

  lemma FreedStart(a: Arena, t: nat, b: nat)
    requires Ok(a) && b in a.live && Spot(a, t, b)
    ensures a.list[t] in a.hdr && a.list[t] + Size(a, a.list[t]) <= b && a.list[t] != b && a.list[t] != 0
    ensures t + 1 < |a.list| ==>
            a.list[t + 1] in a.hdr && a.list[t + 1] != a.list[t] && a.list[t + 1] != b
            && b + Size(a, b) <= a.list[t + 1]
    ensures a.hdr[a.list[t]].ptr == (if t + 1 < |a.list| then a.list[t + 1] else a.base) && b + Size(a, b) != a.base
  {
    hide Tiles, Live;
    InSpot(a, t, b);
    InsertedGap(a, t, b, t);
    if t + 1 < |a.list| {
      InsertedGap(a, t, b, t + 1);
    }
    assert LinkOk(a, t);
  }

  /** The headers free leaves, written as the code writes them. */
  lemma FreedHdr(a: Arena, t: nat, b: nat)
    requires t < |a.list| && a.list[t] in a.hdr && b in a.hdr && a.list[t] != b
    requires t + 1 < |a.list| ==> a.list[t + 1] in a.hdr && a.list[t + 1] != a.list[t] && a.list[t + 1] != b
    requires a.hdr[a.list[t]].ptr == (if t + 1 < |a.list| then a.list[t + 1] else a.base) && b + a.hdr[b].size != a.base
    ensures var p := a.list[t];
            var q, n := a.hdr[p].ptr, a.hdr[b].size;
            var right := b + n == q;
            && (right ==> q in a.hdr)
            && var h1 := a.hdr[b := if right then Header(a.hdr[q].ptr, n + a.hdr[q].size) else Header(q, n)];
               var a2 := FreedWith(a, t, b);
               && t + 1 < |a2.list| && a2.list[t] == p && a2.list[t + 1] == b && p in a2.hdr && b in a2.hdr
               && Freed(a2, t, b).hdr ==
                  h1[p := if p + a.hdr[p].size == b then Header(h1[b].ptr, a.hdr[p].size + h1[b].size)
                                                else Header(b, a.hdr[p].size)]
  {
    InsertedAt(a, t, b);
    var a1, p := Inserted(a, t, b), a.list[t];
    var a2 := FreedWith(a, t, b);
    if t + 1 < |a.list| && b + a.hdr[b].size == a.list[t + 1] {
      assert a1.list[t + 2] == a.list[t + 1];
      assert a2.list == Without(a1.list, t + 2) && a2.list[t] == a1.list[t] && a2.list[t + 1] == a1.list[t + 1];
    }
  }

  /** Headers of other live blocks are untouched. */
  lemma FreedLive(a: Arena, t: nat, b: nat)
    requires Ok(a) && Coalesced(a) && b in a.live && Spot(a, t, b)
    ensures a.list[t] in a.hdr && b in a.hdr && (t + 1 < |a.list| ==> a.list[t + 1] in a.hdr)
    ensures var a2 := FreedWith(a, t, b);
            && t + 1 < |a2.list| && a2.list[t] in a2.hdr && a2.list[t + 1] in a2.hdr
            && forall s :: s in a.live && s != b ==>
               s in a.hdr && s in Freed(a2, t, b).hdr && Freed(a2, t, b).hdr[s] == a.hdr[s]
  {
    hide Tiles, FreedWith, Freed, Coalesced;
    FreedRight(a, t, b);
    FreedStart(a, t, b);
    FreedHdr(a, t, b);
    var a2 := FreedWith(a, t, b);
    forall s | s in a.live && s != b ensures s in a.hdr && s != a.list[t] {
    }
  }

  ghost function FreeArena(a: Arena, t: nat, b: nat): Arena
    requires Ok(a) && Coalesced(a) && b in a.live && Spot(a, t, b)
  {
    FreedRight(a, t, b);
    Freed(FreedWith(a, t, b), t, b)
  }

  /** The headers as the code leaves them: b joined to q if they touch, then to p. */
  function FreeHdr(h: map<nat, Header>, p: nat, b: nat): map<nat, Header>
    requires p in h && b in h && (b + h[b].size == h[p].ptr ==> h[p].ptr in h)
  {
    var q := h[p].ptr;
    var h1 := h[b := if b + h[b].size == q then Header(h[q].ptr, h[b].size + h[q].size) else Header(q, h[b].size)];
    h1[p := if p + h1[p].size == b then Header(h1[b].ptr, h1[p].size + h1[b].size) else Header(b, h1[p].size)]
  }

  lemma FreeArenaOk(a: Arena, t: nat, b: nat)
    requires Ok(a) && Coalesced(a) && b in a.live && Spot(a, t, b)
    ensures var a' := FreeArena(a, t, b);
            && Ok(a') && Coalesced(a') && a'.base == a.base && a'.live == a.live - {b} && a'.tile.Keys == a.tile.Keys
            && a.list[t] in a'.list && a.list[t] != 0 && a.list[t] in a.hdr && b in a.hdr && a.list[t] != b
            && (exists i :: 0 < i < |a'.list| && a'.list[i] in a'.hdr && a'.hdr[a'.list[i]].size >= a.live[b])
            && (forall s :: s in a'.live ==> s in a'.hdr && s in a.hdr && a'.hdr[s] == a.hdr[s])
            && (b + a.hdr[b].size == a.hdr[a.list[t]].ptr ==> a.hdr[a.list[t]].ptr in a.hdr)
            && a'.hdr == FreeHdr(a.hdr, a.list[t], b)
  {
    hide Ring, Live, Tiles, FreedWith, Freed, ApartBut;
    FreedRight(a, t, b);
    FreedStart(a, t, b);
    LiveFacts(a, b);
    var a2 := FreedWith(a, t, b);
    FreedLeft(a2, t, b);
    FreedHdr(a, t, b);
    FreedLive(a, t, b);
  }

  ghost predicate Within(a: Arena, s: nat, u: nat) {
    IsBlock(a, s) && s <= u < s + a.hdr[s].size
  }

  /** Every unit sbrk gave is in exactly one block, free or live, and no other unit is. */
  lemma UnitOnce(a: Arena, u: nat)
    requires Ok(a)
    ensures u in a.tile <==> exists s: nat :: Within(a, s, u)
    ensures forall s: nat, t: nat :: Within(a, s, u) && Within(a, t, u) ==> s == t
  {
    hide Ring, Live;
    if u in a.tile {
      assert UnitOk(a, u);
      assert Within(a, a.tile[u], u);
    }
    forall s: nat | Within(a, s, u) ensures u in a.tile && a.tile[u] == s {
      assert BlockTiled(a, s);
    }
  }
}
