/** Physical pages, the three-level page tables kept in them, and the flat map from
    virtual page to PTE that each table stands for (kernel/vm.c, kernel/riscv.h:335-363,
    section 4.4 of the RISC-V Privileged Architecture). */
module PageTables {
  import opened Common

  const NPTE := 512

  /** MAXVA is 2^38: virtual page numbers have 26 bits. */
  const MAXVPN := 0x400_0000
  const MAXVA := MAXVPN * PGSIZE

  /** The pages from TRAPFRAME up belong to the kernel; a process owns those below. */
  const USERTOP := MAXVPN - 2

  /** A physical page holds PTEs, or bytes, or the link of the free list. */
  datatype Page = Table(ptes: seq<nat>) | Bytes(data: seq<Byte>) | Run(next: nat)

  function ZeroTable(): Page {
    Table(seq(NPTE, i => 0))
  }

  function Filled(b: Byte): Page {
    Bytes(seq(PGSIZE, i => b))
  }

  /** What a page is used for: on the free list, in the hands of kernel code, a node of
      the table at `root` reached from page `up` (its PTEs cover the virtual pages whose
      upper bits are `pre`), or the page mapped at `vpn` by the table at `root`. */
  datatype Role = Free | Held | Node(root: nat, level: nat, pre: nat, up: nat) | Leaf(root: nat, vpn: nat)

  /** Pages lo..hi are the allocatable ones; `role` is bookkeeping. */
  datatype Mem = Mem(lo: nat, hi: nat, pages: map<nat, Page>, role: map<nat, Role>)

  // ---- PTEs ----

  const PTE_V := 1
  const PTE_R := 2
  const PTE_W := 4
  const PTE_X := 8
  const PTE_U := 16
  const PTE_URWX := PTE_R + PTE_W + PTE_X + PTE_U

  function Ppn(pte: nat): nat {
    pte / 1024
  }

  function Flags(pte: nat): nat {
    pte % 1024
  }

  predicate Valid(pte: nat) {
    pte % 2 == 1
  }

  predicate UserBit(pte: nat) {
    (pte / 16) % 2 == 1
  }

  /** None of R, W and X: the PTE names a lower-level table. */
  predicate NoRWX(pte: nat) {
    (pte / 2) % 8 == 0
  }

  /** PA2PTE(pa) | perm | PTE_V. */
  function MkPte(ppn: nat, perm: nat): nat
    requires perm < 1024
  {
    ppn * 1024 + perm - perm % 2 + 1
  }

  lemma PageBits(q: nat, f: nat)
    requires f < 1024
    ensures Ppn(q * 1024 + f) == q && Flags(q * 1024 + f) == f
  {
  }

  lemma ValidBit(q: nat, f: nat)
    ensures Valid(q * 1024 + f) == Valid(f)
  {
    assert q * 1024 + f == 2 * (q * 512) + f;
  }

  lemma UserBits(q: nat, f: nat)
    ensures UserBit(q * 1024 + f) == UserBit(f)
  {
    var g := f / 16;
    assert f == 16 * g + f % 16;
    assert q * 1024 + f == 16 * (q * 64 + g) + f % 16;
    assert (q * 1024 + f) / 16 == q * 64 + g;
    assert q * 64 + g == 2 * (q * 32 + g / 2) + g % 2;
  }

  lemma RWXBits(q: nat, f: nat)
    ensures NoRWX(q * 1024 + f) == NoRWX(f)
  {
    var g := f / 2;
    assert f == 2 * g + f % 2;
    assert q * 1024 + f == 2 * (q * 512 + g) + f % 2;
    assert (q * 1024 + f) / 2 == q * 512 + g;
    assert q * 512 + g == 8 * (q * 64 + g / 8) + g % 8;
  }

  /** Flag bits of a word do not depend on the page number above them. */
  lemma BitsOf(q: nat, f: nat)
    requires f < 1024
    ensures var w := q * 1024 + f; Ppn(w) == q && Flags(w) == f && Valid(w) == Valid(f)
    ensures UserBit(q * 1024 + f) == UserBit(f)
    ensures NoRWX(q * 1024 + f) == NoRWX(f)
  {
    hide Ppn, Flags, Valid, UserBit, NoRWX;
    PageBits(q, f);
    ValidBit(q, f);
    UserBits(q, f);
    RWXBits(q, f);
  }

  lemma WithV(perm: nat)
    requires perm < 1024
    ensures var f := perm - perm % 2 + 1;
            0 < f < 1024 && Valid(f) && UserBit(f) == UserBit(perm) && NoRWX(f) == NoRWX(perm)
  {
    var f := perm - perm % 2 + 1;
    assert f / 2 == perm / 2;
    assert f / 16 == (f / 2) / 8 && perm / 16 == (perm / 2) / 8;
  }

  lemma MkPteParts(ppn: nat, perm: nat)
    requires perm < 1024
    ensures var pte := MkPte(ppn, perm);
            && Valid(pte) && Ppn(pte) == ppn && Flags(pte) == perm - perm % 2 + 1
            && UserBit(pte) == UserBit(perm) && NoRWX(pte) == NoRWX(perm)
  {
    hide UserBit, NoRWX, Valid, Flags, Ppn;
    WithV(perm);
    BitsOf(ppn, perm - perm % 2 + 1);
  }

  function Perm(r: bool, w: bool, x: bool, u: bool): nat {
    (if r then PTE_R else 0) + (if w then PTE_W else 0) + (if x then PTE_X else 0) + if u then PTE_U else 0
  }

  /** walkaddr's test for a user page and freewalk's for a lower table read the bits that
      the permissions set. */
  lemma PermBits(ppn: nat, r: bool, w: bool, x: bool, u: bool)
    ensures var pte := MkPte(ppn, Perm(r, w, x, u));
            && Valid(pte) && Ppn(pte) == ppn && Flags(pte) == Perm(r, w, x, u) + PTE_V
            && (UserBit(pte) <==> u) && (NoRWX(pte) <==> !r && !w && !x)
  {
    hide MkPte, Valid, Ppn, Flags;
    MkPteParts(ppn, Perm(r, w, x, u));
  }

  lemma PteSplit(pte: nat)
    ensures pte == Ppn(pte) * 1024 + Flags(pte) && Flags(pte) < 1024 && Flags(pte) % 2 == pte % 2
  {
    var q, f := pte / 1024, pte % 1024;
    assert pte == q * 1024 + f;
    assert pte == 2 * (q * 512 + f / 2) + f % 2;
  }

  /** A PTE's flags survive a copy to another page. */
  lemma MkPteSame(ppn: nat, pte: nat)
    requires Valid(pte)
    ensures Flags(pte) < 1024 && Flags(MkPte(ppn, Flags(pte))) == Flags(pte)
    ensures UserBit(Flags(pte)) == UserBit(pte) && NoRWX(Flags(pte)) == NoRWX(pte)
  {
    hide UserBit, NoRWX, Flags, Ppn, MkPte;
    PteSplit(pte);
    BitsOf(Ppn(pte), Flags(pte));
    MkPteParts(ppn, Flags(pte));
  }

  // ---- Indices ----

  /** The upper bits shared by all pages a level-l node on vpn's path covers. */
  function Pre(vpn: nat, l: nat): nat
    requires l <= 2
  {
    if l == 0 then vpn / 512 else if l == 1 then vpn / 0x4_0000 else vpn / 0x800_0000
  }

  /** PX(level, va). */
  function Idx(vpn: nat, l: nat): nat
    requires l <= 2
  {
    if l == 0 then vpn % 512 else if l == 1 then (vpn / 512) % 512 else (vpn / 0x4_0000) % 512
  }

  /** Prefixes of pages below MAXVA. */
  function PreBound(l: nat): nat
    requires l <= 2
  {
    if l == 0 then 0x2_0000 else if l == 1 then 256 else 1
  }

  lemma PreInBound(vpn: nat, l: nat)
    requires l <= 2 && vpn < MAXVPN
    ensures Pre(vpn, l) < PreBound(l)
  {
  }

  lemma PreStep(vpn: nat, l: nat)
    requires 1 <= l <= 2
    ensures Pre(vpn, l - 1) == Pre(vpn, l) * NPTE + Idx(vpn, l) && Pre(vpn, l) == Pre(vpn, l - 1) / NPTE
    ensures Idx(vpn, l) == Pre(vpn, l - 1) % NPTE
  {
    if l == 1 {
      var a := vpn / 512;
      assert vpn / 0x4_0000 == a / 512;
    } else {
      var a := vpn / 0x4_0000;
      assert vpn / 0x800_0000 == a / 512;
    }
  }

  lemma PreZero(vpn: nat)
    ensures vpn == Pre(vpn, 0) * NPTE + Idx(vpn, 0)
    ensures vpn < MAXVPN ==> Pre(vpn, 2) == 0
  {
  }

  // ---- Trees ----

  ghost predicate IsNode(m: Mem, p: nat, r: nat, l: nat, pre: nat) {
    p in m.role && m.role[p].Node? && m.role[p].root == r && m.role[p].level == l && m.role[p].pre == pre
  }

  ghost predicate IsRoot(m: Mem, r: nat) {
    r in m.role && m.role[r].Node? && m.role[r].level == 2
  }

  predicate IsTable(m: Mem, p: nat) {
    p in m.pages && m.pages[p].Table? && |m.pages[p].ptes| == NPTE
  }

  ghost predicate ShapeOk(m: Mem, p: nat)
    requires p in m.role
  {
    var n := m.role[p];
    n.Node? ==> IsTable(m, p) && n.level <= 2 && n.pre < PreBound(n.level) && (n.level == 2 ==> n.root == p)
  }

  /** Valid PTEs above level 0 name the next node down, with no flag but V. */
  ghost predicate DownOk(m: Mem, p: nat)
    requires p in m.role
  {
    m.role[p].Node? && m.role[p].level > 0 && IsTable(m, p) ==>
      forall i :: 0 <= i < NPTE && Valid(m.pages[p].ptes[i]) ==> ChildOk(m, m.role[p], i, m.pages[p].ptes[i])
  }

  ghost predicate ChildOk(m: Mem, n: Role, i: nat, pte: nat)
    requires n.Node? && n.level > 0
  {
    Flags(pte) == PTE_V && IsNode(m, Ppn(pte), n.root, n.level - 1, n.pre * NPTE + i)
  }

  /** Every node but the root hangs where `up` says. */
  ghost predicate UpOk(m: Mem, p: nat)
    requires p in m.role
  {
    var n := m.role[p];
    n.Node? && n.level < 2 ==>
      && IsNode(m, n.up, n.root, n.level + 1, n.pre / NPTE) && IsTable(m, n.up)
      && var pte := m.pages[n.up].ptes[n.pre % NPTE]; Valid(pte) && Ppn(pte) == p
  }

  ghost predicate Tree(m: Mem) {
    forall p :: p in m.role ==> ShapeOk(m, p) && DownOk(m, p) && UpOk(m, p)
  }

  // ---- The flat map ----

  /** The level-l node on vpn's path from r. */
  function NodeAt(m: Mem, r: nat, vpn: nat, l: nat): Option<nat>
    requires l <= 2
    decreases 2 - l
  {
    if l == 2 then Some(r)
    else
      match NodeAt(m, r, vpn, l + 1)
      case None => None
      case Some(p) =>
        if IsTable(m, p) && Valid(m.pages[p].ptes[Idx(vpn, l + 1)]) then Some(Ppn(m.pages[p].ptes[Idx(vpn, l + 1)]))
          else None
  }

  /** The PTE of virtual page vpn; 0 where there is none. */
  function Entry(m: Mem, r: nat, vpn: nat): nat {
    match NodeAt(m, r, vpn, 0)
    case None => 0
    case Some(p) => if IsTable(m, p) then m.pages[p].ptes[Idx(vpn, 0)] else 0
  }

  predicate HasTable(m: Mem, r: nat, vpn: nat) {
    NodeAt(m, r, vpn, 0).Some?
  }

  lemma {:induction false} NodeAtRole(m: Mem, r: nat, vpn: nat, l: nat)
    requires Tree(m) && IsRoot(m, r) && vpn < MAXVPN && l <= 2 && NodeAt(m, r, vpn, l).Some?
    ensures IsNode(m, NodeAt(m, r, vpn, l).value, r, l, Pre(vpn, l)) && IsTable(m, NodeAt(m, r, vpn, l).value)
    decreases 2 - l
  {
    if l == 2 {
      assert ShapeOk(m, r);
      PreZero(vpn);
    } else {
      NodeAtRole(m, r, vpn, l + 1);
      PreStep(vpn, l + 1);
      var p := NodeAt(m, r, vpn, l + 1).value;
      assert DownOk(m, p);
      assert ShapeOk(m, NodeAt(m, r, vpn, l).value);
    }
  }

  lemma {:induction false} RoleNodeAt(m: Mem, p: nat, r: nat, vpn: nat, l: nat)
    requires Tree(m) && l <= 2 && IsNode(m, p, r, l, Pre(vpn, l))
    ensures NodeAt(m, r, vpn, l) == Some(p) && IsRoot(m, r) && IsTable(m, p)
    decreases 2 - l
  {
    assert ShapeOk(m, p);
    if l < 2 {
      assert UpOk(m, p);
      PreStep(vpn, l + 1);
      RoleNodeAt(m, m.role[p].up, r, vpn, l + 1);
    }
  }

  /** A node is the only one of its root, level and prefix. */
  lemma {:induction false} NodeUnique(m: Mem, p: nat, q: nat, r: nat, l: nat, pre: nat)
    requires Tree(m) && l <= 2 && IsNode(m, p, r, l, pre) && IsNode(m, q, r, l, pre)
    ensures p == q
    decreases 2 - l
  {
    assert ShapeOk(m, p) && ShapeOk(m, q) && UpOk(m, p) && UpOk(m, q);
    if l < 2 {
      NodeUnique(m, m.role[p].up, m.role[q].up, r, l + 1, pre / NPTE);
    }
  }

  function SetPte(m: Mem, p: nat, i: nat, pte: nat): Mem
    requires IsTable(m, p) && i < NPTE
  {
    Mem(m.lo, m.hi, m.pages[p := Table(m.pages[p].ptes[i := pte])], m.role)
  }

  /** Every table maps what it mapped before. */
  ghost predicate SameMaps(m: Mem, m': Mem) {
    && (forall r :: IsRoot(m, r) <==> IsRoot(m', r))
    && forall r, v :: IsRoot(m, r) && 0 <= v < MAXVPN ==> Entry(m', r, v) == Entry(m, r, v)
  }

  /** The table at r maps vpn to pte, and nothing else has changed. */
  ghost predicate OneMapped(m: Mem, m': Mem, r: nat, vpn: nat, pte: nat) {
    && (forall k :: IsRoot(m, k) <==> IsRoot(m', k))
    && forall k, v :: IsRoot(m, k) && 0 <= v < MAXVPN ==>
       Entry(m', k, v) == if k == r && v == vpn then pte else Entry(m, k, v)
  }

  /** Storing a level-0 PTE changes the map of that one page and nothing else. */
  lemma SetLeafTree(m: Mem, p: nat, i: nat, pte: nat)
    requires Tree(m) && p in m.role && m.role[p].Node? && m.role[p].level == 0 && i < NPTE && IsTable(m, p)
    ensures Tree(SetPte(m, p, i, pte))
  {
    var m' := SetPte(m, p, i, pte);
    forall q | q in m'.role ensures ShapeOk(m', q) && DownOk(m', q) && UpOk(m', q) {
      assert ShapeOk(m, q) && DownOk(m, q) && UpOk(m, q);
    }
  }

  lemma {:induction false} SetLeafNode(m: Mem, p: nat, i: nat, pte: nat, r: nat, v: nat, l: nat)
    requires Tree(m) && p in m.role && m.role[p].Node? && m.role[p].level == 0 && i < NPTE && IsTable(m, p)
    requires IsRoot(m, r) && v < MAXVPN && l <= 2
    ensures NodeAt(SetPte(m, p, i, pte), r, v, l) == NodeAt(m, r, v, l)
    decreases 2 - l
  {
    if l < 2 {
      SetLeafNode(m, p, i, pte, r, v, l + 1);
      if NodeAt(m, r, v, l + 1).Some? {
        NodeAtRole(m, r, v, l + 1);
      }
    }
  }

  lemma SetLeaf(m: Mem, p: nat, r: nat, vpn: nat, pte: nat)
    requires Tree(m) && vpn < MAXVPN && IsNode(m, p, r, 0, Pre(vpn, 0)) && IsTable(m, p)
    ensures Tree(SetPte(m, p, Idx(vpn, 0), pte)) && OneMapped(m, SetPte(m, p, Idx(vpn, 0), pte), r, vpn, pte)
    ensures SameTables(m, SetPte(m, p, Idx(vpn, 0), pte))
  {
    hide Tree, Entry, HasTable;
    var m' := SetPte(m, p, Idx(vpn, 0), pte);
    SetLeafTree(m, p, Idx(vpn, 0), pte);
    forall k, v | IsRoot(m, k) && 0 <= v < MAXVPN
      ensures Entry(m', k, v) == if k == r && v == vpn then pte else Entry(m, k, v)
      ensures HasTable(m', k, v) == HasTable(m, k, v)
    {
      SetLeafEntry(m, p, r, vpn, pte, k, v);
    }
  }

  lemma SetLeafEntry(m: Mem, p: nat, r: nat, vpn: nat, pte: nat, k: nat, v: nat)
    requires Tree(m) && vpn < MAXVPN && IsNode(m, p, r, 0, Pre(vpn, 0)) && IsTable(m, p)
    requires IsRoot(m, k) && v < MAXVPN
    ensures var m' := SetPte(m, p, Idx(vpn, 0), pte);
            && Entry(m', k, v) == (if k == r && v == vpn then pte else Entry(m, k, v))
            && HasTable(m', k, v) == HasTable(m, k, v)
  {
    RoleNodeAt(m, p, r, vpn, 0);
    SetLeafNode(m, p, Idx(vpn, 0), pte, k, v, 0);
    if NodeAt(m, k, v, 0).Some? {
      NodeAtRole(m, k, v, 0);
      PreZero(v);
      PreZero(vpn);
    }
  }

  function Hung(m: Mem, p: nat, i: nat, c: nat): Mem
    requires p in m.role && m.role[p].Node? && m.role[p].level > 0
  {
    Mem(m.lo, m.hi, m.pages[c := ZeroTable()],
      m.role[c := Node(m.role[p].root, m.role[p].level - 1, m.role[p].pre * NPTE + i, p)])
  }

  /** Page c becomes an empty node below entry i of p. */
  function Grown(m: Mem, p: nat, i: nat, c: nat): Mem
    requires IsTable(m, p) && i < NPTE && c != p && p in m.role && m.role[p].Node? && m.role[p].level > 0
  {
    SetPte(Hung(m, p, i, c), p, i, c * 1024 + PTE_V)
  }

  /** A held page can be hung at an invalid entry. */
  ghost predicate CanGrow(m: Mem, p: nat, i: nat, c: nat) {
    && IsTable(m, p) && i < NPTE && c != p && p in m.role && m.role[p].Node? && m.role[p].level in {1, 2}
    && m.role[p].pre * NPTE + i < PreBound(m.role[p].level - 1)
    && !Valid(m.pages[p].ptes[i]) && c in m.role && m.role[c] == Held
  }

  lemma GrownPage(m: Mem, p: nat, i: nat, c: nat, q: nat)
    requires CanGrow(m, p, i, c)
    ensures var m' := Grown(m, p, i, c);
            && (IsTable(m, q) ==> IsTable(m', q)) && IsTable(m', c) && IsTable(m', p)
            && (q != c && q != p && q in m.pages ==> q in m'.pages && m'.pages[q] == m.pages[q])
            && m'.pages[p] == Table(m.pages[p].ptes[i := c * 1024 + PTE_V]) && m'.pages[c] == ZeroTable()
  {
  }

  lemma GrownDown(m: Mem, p: nat, i: nat, c: nat, q: nat)
    requires CanGrow(m, p, i, c) && q in m.role && ShapeOk(m, q) && DownOk(m, q) && ShapeOk(m, p)
    ensures DownOk(Grown(m, p, i, c), q)
  {
    var m' := Grown(m, p, i, c);
    GrownPage(m, p, i, c, q);
    BitsOf(c, PTE_V);
    var role' := m'.role;
    hide Grown, Flags, Ppn, Valid;
    if q != c && m.role[q].Node? && m.role[q].level > 0 {
      forall j | 0 <= j < NPTE && Valid(m'.pages[q].ptes[j]) ensures ChildOk(m', m'.role[q], j, m'.pages[q].ptes[j]) {
        if q == p && j == i {
        } else {
          assert ChildOk(m, m.role[q], j, m.pages[q].ptes[j]);
        }
      }
    } else if q == c {
      assert !Valid(0);
    }
  }

  lemma GrownUp(m: Mem, p: nat, i: nat, c: nat, q: nat)
    requires CanGrow(m, p, i, c) && q in m.role && ShapeOk(m, q) && UpOk(m, q) && ShapeOk(m, p)
    ensures UpOk(Grown(m, p, i, c), q)
  {
    var m' := Grown(m, p, i, c);
    BitsOf(c, PTE_V);
    if q == c {
      GrownPage(m, p, i, c, p);
      hide Flags, Ppn, Valid, Hung;
    } else if m.role[q].Node? && m.role[q].level < 2 {
      GrownPage(m, p, i, c, m.role[q].up);
      hide Flags, Ppn, Valid, Hung;
    }
  }

  lemma GrownTree(m: Mem, p: nat, i: nat, c: nat)
    requires Tree(m) && CanGrow(m, p, i, c)
    ensures Tree(Grown(m, p, i, c))
  {
    var m' := Grown(m, p, i, c);
    assert ShapeOk(m, p);
    assert m'.role.Keys == m.role.Keys;
    forall q | q in m'.role ensures ShapeOk(m', q) && DownOk(m', q) && UpOk(m', q) {
      assert ShapeOk(m, q) && DownOk(m, q) && UpOk(m, q);
      GrownPage(m, p, i, c, q);
      hide DownOk, UpOk, Grown;
      GrownDown(m, p, i, c, q);
      GrownUp(m, p, i, c, q);
    }
  }

  lemma {:induction false} GrownNode(m: Mem, p: nat, i: nat, c: nat, r: nat, v: nat, l: nat)
    requires Tree(m) && CanGrow(m, p, i, c) && IsRoot(m, r) && v < MAXVPN && l <= 2
    ensures NodeAt(m, r, v, l).Some? ==> NodeAt(Grown(m, p, i, c), r, v, l) == NodeAt(m, r, v, l)
    ensures NodeAt(m, r, v, l).None? ==> NodeAt(Grown(m, p, i, c), r, v, l) in {None, Some(c)}
    decreases 2 - l
  {
    if l < 2 {
      GrownNode(m, p, i, c, r, v, l + 1);
      if NodeAt(m, r, v, l + 1).Some? {
        NodeAtRole(m, r, v, l + 1);
      }
    }
  }

  /** Growing a tree leaves every table's map as it was. */
  lemma GrownMaps(m: Mem, p: nat, i: nat, c: nat)
    requires Tree(m) && CanGrow(m, p, i, c)
    ensures SameMaps(m, Grown(m, p, i, c))
    ensures forall r, v :: IsRoot(m, r) && 0 <= v < MAXVPN && HasTable(m, r, v) ==> HasTable(Grown(m, p, i, c), r, v)
  {
    var m' := Grown(m, p, i, c);
    assert ShapeOk(m, p);
    forall r, v | IsRoot(m, r) && 0 <= v < MAXVPN
      ensures Entry(m', r, v) == Entry(m, r, v) && (HasTable(m, r, v) ==> HasTable(m', r, v))
    {
      GrownNode(m, p, i, c, r, v, 0);
      if NodeAt(m, r, v, 0).Some? {
        NodeAtRole(m, r, v, 0);
      }
    }
  }

  /** A change that touches no node keeps every tree and every map. */
  ghost predicate SameNodes(m: Mem, m': Mem) {
    && m'.role.Keys == m.role.Keys
    && (forall q :: q in m.role && (m.role[q].Node? || m'.role[q].Node?) ==> m'.role[q] == m.role[q])
    && (forall q :: q in m.role && m.role[q].Node? && q in m.pages ==> q in m'.pages && m'.pages[q] == m.pages[q])
  }

  lemma {:induction false} SameNodesAt(m: Mem, m': Mem, r: nat, v: nat, l: nat)
    requires Tree(m) && SameNodes(m, m') && IsRoot(m, r) && v < MAXVPN && l <= 2
    ensures NodeAt(m', r, v, l) == NodeAt(m, r, v, l)
    decreases 2 - l
  {
    if l < 2 {
      SameNodesAt(m, m', r, v, l + 1);
      if NodeAt(m, r, v, l + 1).Some? {
        NodeAtRole(m, r, v, l + 1);
      }
    }
  }

  lemma SameNodesTree(m: Mem, m': Mem)
    requires Tree(m) && SameNodes(m, m')
    ensures Tree(m') && SameMaps(m, m') && SameTables(m, m')
  {
    forall q | q in m'.role ensures ShapeOk(m', q) && DownOk(m', q) && UpOk(m', q) {
      assert ShapeOk(m, q) && DownOk(m, q) && UpOk(m, q);
      SameNodesDown(m, m', q);
    }
    forall r, v | IsRoot(m, r) && 0 <= v < MAXVPN
      ensures Entry(m', r, v) == Entry(m, r, v) && HasTable(m', r, v) == HasTable(m, r, v) {
      SameNodesAt(m, m', r, v, 0);
      if NodeAt(m, r, v, 0).Some? {
        NodeAtRole(m, r, v, 0);
      }
    }
  }

  lemma SameNodesDown(m: Mem, m': Mem, q: nat)
    requires SameNodes(m, m') && q in m.role && ShapeOk(m, q) && DownOk(m, q)
    ensures DownOk(m', q)
  {
    if m.role[q].Node? && m.role[q].level > 0 {
      forall i | 0 <= i < NPTE && Valid(m'.pages[q].ptes[i]) ensures ChildOk(m', m'.role[q], i, m'.pages[q].ptes[i]) {
        assert ChildOk(m, m.role[q], i, m.pages[q].ptes[i]);
      }
    }
  }

  ghost predicate SameTables(m: Mem, m': Mem) {
    forall r, v :: IsRoot(m, r) && 0 <= v < MAXVPN ==> HasTable(m', r, v) == HasTable(m, r, v)
  }

  // ---- Allocatable pages and the free list ----

  ghost predicate Span(m: Mem) {
    && 0 < m.lo <= m.hi
    && (forall p :: p in m.pages <==> m.lo <= p < m.hi)
    && (forall p :: p in m.role <==> m.lo <= p < m.hi)
  }

  /** `free` lists exactly the free pages, each once, linked through the pages. */
  ghost predicate Chain(m: Mem, head: nat, free: seq<nat>) {
    && (forall i, j :: 0 <= i < j < |free| ==> free[i] != free[j])
    && (forall p :: p in free <==> p in m.role && m.role[p] == Free)
    && head == (if free == [] then 0 else free[0])
    && (forall i :: 0 <= i < |free| ==> free[i] in m.pages && m.pages[free[i]] == Run(NextFree(free, i)))
  }

  function NextFree(free: seq<nat>, i: nat): nat {
    if i + 1 < |free| then free[i + 1] else 0
  }

  lemma ChainPop(m: Mem, head: nat, free: seq<nat>, pg: Page)
    requires Span(m) && Chain(m, head, free) && free != []
    ensures head == free[0] && m.pages[head] == Run(NextFree(free, 0)) && m.role[head] == Free && head != 0
    ensures var m' := Mem(m.lo, m.hi, m.pages[head := pg], m.role[head := Held]);
            Span(m') && Chain(m', NextFree(free, 0), free[1..])
  {
    var m' := Mem(m.lo, m.hi, m.pages[head := pg], m.role[head := Held]);
    var rest := free[1..];
    assert free[0] in free;
    forall p | p in m.role && m'.role[p] == Free ensures p in rest {
      assert p in free && p != free[0];
    }
    forall i | 0 <= i < |rest| ensures rest[i] in m'.pages && m'.pages[rest[i]] == Run(NextFree(rest, i)) {
      assert rest[i] == free[i + 1] && NextFree(rest, i) == NextFree(free, i + 1);
    }
  }

  lemma ChainPush(m: Mem, head: nat, free: seq<nat>, p: nat)
    requires Span(m) && Chain(m, head, free) && p in m.role && m.role[p] != Free
    ensures var m' := Mem(m.lo, m.hi, m.pages[p := Run(head)], m.role[p := Free]); Span(m') && Chain(m', p, [p] + free)
  {
    var m' := Mem(m.lo, m.hi, m.pages[p := Run(head)], m.role[p := Free]);
    var all := [p] + free;
    assert p !in free;
    forall i | 0 <= i < |all| ensures all[i] in m'.pages && m'.pages[all[i]] == Run(NextFree(all, i)) {
      if i > 0 {
        assert all[i] == free[i - 1] && NextFree(all, i) == NextFree(free, i - 1);
      }
    }
  }

  // ---- User pages ----

  predicate IsBytes(m: Mem, p: nat) {
    p in m.pages && m.pages[p].Bytes? && |m.pages[p].data| == PGSIZE
  }

  /** A leaf page is mapped where its role says. */
  ghost predicate LeafOk(m: Mem, p: nat)
    requires p in m.role
  {
    m.role[p].Leaf? ==>
      && IsRoot(m, m.role[p].root) && m.role[p].vpn < USERTOP && IsBytes(m, p)
      && Valid(Entry(m, m.role[p].root, m.role[p].vpn)) && Ppn(Entry(m, m.role[p].root, m.role[p].vpn)) == p
  }

  /** Below TRAPFRAME a table maps only its own leaf pages; the user cannot reach what
      is mapped above. */
  ghost predicate EntryOk(m: Mem, r: nat, v: nat) {
    && (!Valid(Entry(m, r, v)) ==> Entry(m, r, v) == 0)
    && (Valid(Entry(m, r, v)) ==>
          && Flags(Entry(m, r, v)) != PTE_V
          && if v < USERTOP then Ppn(Entry(m, r, v)) in m.role && m.role[Ppn(Entry(m, r, v))] == Leaf(r, v)
             else !UserBit(Entry(m, r, v)))
  }

  ghost predicate Own(m: Mem) {
    && (forall p :: p in m.role ==> LeafOk(m, p))
    && (forall r, v :: IsRoot(m, r) && 0 <= v < MAXVPN ==> EntryOk(m, r, v))
  }

  /** Maps, leaf pages and what they hold are as before. */
  lemma OwnKept(m: Mem, m': Mem)
    requires Own(m) && SameMaps(m, m') && m'.role.Keys == m.role.Keys
    requires forall q :: q in m.role && (m.role[q].Leaf? || m'.role[q].Leaf?) ==> m'.role[q] == m.role[q]
    requires forall q :: q in m.role && m.role[q].Leaf? && q in m.pages ==> q in m'.pages && m'.pages[q] == m.pages[q]
    ensures Own(m')
  {
    hide Entry;
    forall p | p in m'.role ensures LeafOk(m', p) {
      assert LeafOk(m, p);
    }
    forall r, v | IsRoot(m', r) && 0 <= v < MAXVPN ensures EntryOk(m', r, v) {
      assert EntryOk(m, r, v);
    }
  }

  /** Table r maps the held page p at v, which it did not map before. */
  lemma OwnMapped(m: Mem, m': Mem, r: nat, v: nat, p: nat, pte: nat)
    requires Own(m) && OneMapped(m, m', r, v, pte) && IsRoot(m, r) && v < USERTOP && !Valid(Entry(m, r, v))
    requires Valid(pte) && Ppn(pte) == p && Flags(pte) != PTE_V
    requires p in m.role && m.role[p] == Held && m'.role.Keys == m.role.Keys && m'.role[p] == Leaf(r, v)
    requires IsBytes(m', p)
    requires forall q :: q in m.role && q != p && (m.role[q].Leaf? || m'.role[q].Leaf?) ==> m'.role[q] == m.role[q]
    requires forall q :: q in m.role && m.role[q].Leaf? && q in m.pages ==> q in m'.pages && m'.pages[q] == m.pages[q]
    ensures Own(m')
  {
    hide Entry;
    forall q | q in m'.role ensures LeafOk(m', q) {
      assert LeafOk(m, q);
    }
    forall k, u | IsRoot(m', k) && 0 <= u < MAXVPN ensures EntryOk(m', k, u) {
      assert EntryOk(m, k, u);
    }
  }

  /** Table r no longer maps v; the page it mapped there is nobody's leaf. */
  lemma OwnCleared(m: Mem, m': Mem, r: nat, v: nat)
    requires Own(m) && OneMapped(m, m', r, v, 0) && IsRoot(m, r) && v < MAXVPN && m'.role.Keys == m.role.Keys
    requires forall q :: q in m.role && m.role[q] == Leaf(r, v) ==> !m'.role[q].Leaf?
    requires forall q :: q in m.role && m.role[q] != Leaf(r, v) && (m.role[q].Leaf? || m'.role[q].Leaf?) ==>
             m'.role[q] == m.role[q]
    requires forall q :: q in m.role && m'.role[q].Leaf? && q in m.pages ==> q in m'.pages && m'.pages[q] == m.pages[q]
    ensures Own(m')
  {
    hide Entry;
    assert !Valid(0);
    forall q | q in m'.role ensures LeafOk(m', q) {
      assert LeafOk(m, q);
    }
    forall k, u | IsRoot(m', k) && 0 <= u < MAXVPN ensures EntryOk(m', k, u) {
      assert EntryOk(m, k, u);
    }
  }

  // ---- Each page once ----

  ghost predicate MappedAt(m: Mem, p: nat, r: nat, v: nat) {
    IsRoot(m, r) && v < USERTOP && Valid(Entry(m, r, v)) && Ppn(Entry(m, r, v)) == p
  }

  ghost predicate NodeFor(m: Mem, p: nat, r: nat, v: nat, l: nat) {
    IsRoot(m, r) && v < MAXVPN && l <= 2 && NodeAt(m, r, v, l) == Some(p)
  }

  /** No page is in two places: on the free list, in a table's tree, or mapped by a
      table below TRAPFRAME, at most once. */
  lemma PageOnce(m: Mem, head: nat, free: seq<nat>, p: nat)
    requires Span(m) && Chain(m, head, free) && Tree(m) && Own(m)
    ensures forall r, v, k, u :: MappedAt(m, p, r, v) && MappedAt(m, p, k, u) ==> r == k && v == u
    ensures forall r, v, l, k, u :: NodeFor(m, p, r, v, l) ==> !MappedAt(m, p, k, u) && p !in free
    ensures forall r, v, l, k, u, h :: NodeFor(m, p, r, v, l) && NodeFor(m, p, k, u, h) ==>
            r == k && l == h && Pre(v, l) == Pre(u, l)
    ensures forall r, v :: MappedAt(m, p, r, v) ==> p !in free
  {
    hide Tree, NodeAt, Entry, Pre;
    forall r, v | MappedAt(m, p, r, v) ensures p in m.role && m.role[p] == Leaf(r, v) {
      assert EntryOk(m, r, v);
    }
    forall r, v, l | NodeFor(m, p, r, v, l) ensures IsNode(m, p, r, l, Pre(v, l)) {
      NodeAtRole(m, r, v, l);
    }
  }

  /** No page is lost: what is neither free nor in kernel hands is a node or is mapped. */
  lemma PageNotLost(m: Mem, head: nat, free: seq<nat>, p: nat)
    requires Span(m) && Chain(m, head, free) && Tree(m) && Own(m) && m.lo <= p < m.hi && p !in free && m.role[p] != Held
    ensures (exists r, v :: MappedAt(m, p, r, v)) || (exists r, v, l :: NodeFor(m, p, r, v, l))
  {
    var n := m.role[p];
    if n.Leaf? {
      assert LeafOk(m, p);
      assert MappedAt(m, p, n.root, n.vpn);
    } else {
      assert ShapeOk(m, p);
      var v := n.pre * (if n.level == 0 then 512 else if n.level == 1 then 0x4_0000 else 0x800_0000);
      assert Pre(v, n.level) == n.pre;
      RoleNodeAt(m, p, n.root, v, n.level);
      assert NodeFor(m, p, n.root, v, n.level);
    }
  }
}
