/** What fork's copy of a process's memory does, page by page (kernel/vm.c:301-336). */
module CopySpec {
  import opened Common
  import opened PageTables
  import opened MemChanges
  import opened PageCost
  import opened UserBytes

  datatype Outcome = Done | Failed | Panicked

  /** Where the parent maps page v the child does too, with the same flags and bytes, in
      a page of its own; elsewhere the child maps nothing. */
  ghost predicate PageCopied(m0: Mem, m: Mem, parent: nat, child: nat, v: nat) {
    var e0, e := Entry(m0, parent, v), Entry(m, child, v);
    if Valid(e0) then
      && Valid(e) && Flags(e) == Flags(e0) && Ppn(e) != Ppn(e0)
      && IsBytes(m0, Ppn(e0)) && Ppn(e) in m.pages && m.pages[Ppn(e)] == m0.pages[Ppn(e0)]
    else e == 0
  }

  ghost predicate PagesCopied(m0: Mem, m: Mem, parent: nat, child: nat, n: nat) {
    forall v :: 0 <= v < n ==> PageCopied(m0, m, parent, child, v)
  }

  /** Some page below n, in the group of 512 that shares u's level-0 table, is valid. */
  ghost predicate ValidBelow(m0: Mem, parent: nat, u: nat, n: nat) {
    exists w :: 0 <= w < n && w / NPTE == u / NPTE && Valid(Entry(m0, parent, w))
  }

  /** The child has, or will have when copying reaches page n, a level-0 table for u. */
  ghost predicate Covered(m0: Mem, parent: nat, child: nat, u: nat, n: nat) {
    HasTable(m0, child, u) || ValidBelow(m0, parent, u, n)
  }

  ghost predicate Covers(m0: Mem, m: Mem, parent: nat, child: nat, n: nat) {
    forall u :: 0 <= u < USERTOP ==> (HasTable(m, child, u) <==> Covered(m0, parent, child, u, n))
  }

  lemma CoversNone(m0: Mem, parent: nat, child: nat)
    ensures Covers(m0, m0, parent, child, 0) && PagesCopied(m0, m0, parent, child, 0)
  {
    hide HasTable, Entry;
  }

  /** The parent's PTE for page n is invalid: nothing to copy. */
  lemma CopySkip(m0: Mem, m: Mem, parent: nat, child: nat, n: nat)
    requires Own(m0) && IsRoot(m0, parent) && IsRoot(m0, child) && n < USERTOP && !Valid(Entry(m0, parent, n))
    requires !Valid(Entry(m0, child, n))
    requires Gained(m0, m, child, 0, n) && PagesCopied(m0, m, parent, child, n) && Covers(m0, m, parent, child, n)
    ensures Gained(m0, m, child, 0, n + 1) && PagesCopied(m0, m, parent, child, n + 1)
    ensures Covers(m0, m, parent, child, n + 1)
  {
    hide Entry, HasTable, Valid, Gained, PageCopied;
    GainedMore(m0, m, child, 0, n);
    SkippedPage(m0, m, parent, child, n);
    forall u | 0 <= u < USERTOP ensures Covered(m0, parent, child, u, n + 1) == Covered(m0, parent, child, u, n) {
      if ValidBelow(m0, parent, u, n + 1) {
        var w :| 0 <= w < n + 1 && w / NPTE == u / NPTE && Valid(Entry(m0, parent, w));
        assert w < n;
      }
      if ValidBelow(m0, parent, u, n) {
        var w :| 0 <= w < n && w / NPTE == u / NPTE && Valid(Entry(m0, parent, w));
        assert 0 <= w < n + 1;
      }
    }
  }

  lemma SkippedPage(m0: Mem, m: Mem, parent: nat, child: nat, n: nat)
    requires Own(m0) && IsRoot(m0, child) && n < USERTOP && !Valid(Entry(m0, parent, n)) && !Valid(Entry(m0, child, n))
    requires Gained(m0, m, child, 0, n)
    ensures PageCopied(m0, m, parent, child, n)
  {
    hide Entry, HasTable;
    GainRoot(m0, m, child, 0, n, n);
    assert EntryOk(m0, child, n);
  }

  /** Page n has been copied into the free page p. */
  lemma CopyMore(m0: Mem, m1: Mem, m2: Mem, parent: nat, child: nat, n: nat, p: nat, pg: Page, perm: nat)
    requires Own(m0) && Own(m1) && IsRoot(m0, parent) && IsRoot(m0, child) && IsRoot(m1, child) && n < USERTOP
    requires Valid(Entry(m0, parent, n))
    requires Gained(m0, m1, child, 0, n) && PagesCopied(m0, m1, parent, child, n) && Covers(m0, m1, parent, child, n)
    requires perm < 1024 && perm == Flags(Entry(m0, parent, n)) && IsBytes(m0, Ppn(Entry(m0, parent, n)))
    requires pg == m0.pages[Ppn(Entry(m0, parent, n))]
    requires GainedOne(m1, m2, child, n, p, pg, perm) && NewIn(m1, m2, child, n, 1)
    ensures Gained(m0, m2, child, 0, n + 1) && PagesCopied(m0, m2, parent, child, n + 1)
    ensures Covers(m0, m2, parent, child, n + 1)
  {
    hide Entry, HasTable, Valid, Gained, GainedOne, PageCopied, Own, Covered, Flags, Ppn, NewIn;
    GainStep(m0, m1, m2, child, 0, n, p, pg, perm);
    NewPage(m0, m1, m2, parent, child, n, p, pg, perm);
    forall v | 0 <= v < n ensures PageCopied(m0, m2, parent, child, v) {
      KeptPage(m0, m1, m2, parent, child, n, p, pg, perm, v);
    }
    forall u | 0 <= u < USERTOP ensures HasTable(m2, child, u) <==> Covered(m0, parent, child, u, n + 1) {
      CoverStep(m0, m1, m2, parent, child, n, p, pg, perm, u);
    }
  }

  lemma NewPage(m0: Mem, m1: Mem, m2: Mem, parent: nat, child: nat, n: nat, p: nat, pg: Page, perm: nat)
    requires Own(m0) && IsRoot(m0, parent) && n < USERTOP && Valid(Entry(m0, parent, n)) && IsRoot(m1, child)
    requires perm < 1024 && perm == Flags(Entry(m0, parent, n)) && IsBytes(m0, Ppn(Entry(m0, parent, n)))
    requires pg == m0.pages[Ppn(Entry(m0, parent, n))]
    requires Gained(m0, m1, child, 0, n) && GainedOne(m1, m2, child, n, p, pg, perm)
    ensures PageCopied(m0, m2, parent, child, n)
  {
    hide Entry, HasTable, MkPte, UserBit, NoRWX;
    MkPteParts(p, perm);
    MkPteSame(p, Entry(m0, parent, n));
    assert EntryOk(m0, parent, n);
    hide Ppn, Flags, Valid;
  }

  lemma KeptPage(m0: Mem, m1: Mem, m2: Mem, parent: nat, child: nat, n: nat, p: nat, pg: Page, perm: nat, v: nat)
    requires Own(m1) && IsRoot(m1, child) && v < n < USERTOP && perm < 1024
    requires PageCopied(m0, m1, parent, child, v) && GainedOne(m1, m2, child, n, p, pg, perm)
    ensures PageCopied(m0, m2, parent, child, v)
  {
    hide Entry, HasTable, MkPte, Flags, Ppn, Valid;
    assert EntryOk(m1, child, v);
  }

  lemma CoverStep(m0: Mem, m1: Mem, m2: Mem, parent: nat, child: nat, n: nat, p: nat, pg: Page, perm: nat, u: nat)
    requires IsRoot(m1, child) && n < USERTOP && u < USERTOP && perm < 1024 && Valid(Entry(m0, parent, n))
    requires HasTable(m1, child, u) <==> Covered(m0, parent, child, u, n)
    requires GainedOne(m1, m2, child, n, p, pg, perm) && NewIn(m1, m2, child, n, 1)
    ensures HasTable(m2, child, u) <==> Covered(m0, parent, child, u, n + 1)
  {
    hide Entry, NodeAt, MkPte, Valid;
    if u / NPTE == n / NPTE {
      TableGroup(m2, child, u, n, 0);
      assert ValidBelow(m0, parent, u, n + 1);
    } else if ValidBelow(m0, parent, u, n + 1) {
      var w :| 0 <= w < n + 1 && w / NPTE == u / NPTE && Valid(Entry(m0, parent, w));
      assert w < n;
    }
  }

  /** Out of memory at page n: the tables are as they were. */
  lemma CopyStuck(m0: Mem, m1: Mem, m2: Mem, parent: nat, child: nat, n: nat)
    requires Covers(m0, m1, parent, child, n) && Framed(m1, m2, child) && NewIn(m1, m2, child, n, 0)
    requires IsRoot(m1, child)
    ensures Covers(m0, m2, parent, child, n)
  {
    hide HasTable, Covered;
    forall u | 0 <= u < USERTOP ensures HasTable(m2, child, u) == HasTable(m1, child, u) {
    }
  }

  /** The child reads what the parent read. */
  lemma ChildReads(m0: Mem, m: Mem, parent: nat, child: nat, n: nat)
    requires PagesCopied(m0, m, parent, child, n) && n <= USERTOP
    ensures forall va :: 0 <= va < n * PGSIZE ==> UserByte(m, child, va) == UserByte(m0, parent, va)
  {
    forall va | 0 <= va < n * PGSIZE ensures UserByte(m, child, va) == UserByte(m0, parent, va) {
      var v := va / PGSIZE;
      assert v < n;
      PageReads(m0, m, parent, child, v, va);
    }
  }

  lemma PageReads(m0: Mem, m: Mem, parent: nat, child: nat, v: nat, va: nat)
    requires PageCopied(m0, m, parent, child, v) && v == va / PGSIZE && v < USERTOP
    ensures UserByte(m, child, va) == UserByte(m0, parent, va)
  {
    hide Entry;
    var e0, e := Entry(m0, parent, v), Entry(m, child, v);
    if Valid(e0) {
      SameUserBit(e, e0);
    } else {
      assert !Valid(0);
    }
  }

  lemma SameUserBit(e: nat, e0: nat)
    requires Flags(e) == Flags(e0)
    ensures UserBit(e) == UserBit(e0)
  {
    assert e == Ppn(e) * 1024 + Flags(e) && e0 == Ppn(e0) * 1024 + Flags(e0);
    BitsOf(Ppn(e), Flags(e));
    BitsOf(Ppn(e0), Flags(e0));
  }

  /** The parent's page v, while the child gains pages. */
  lemma ParentPage(m0: Mem, m: Mem, parent: nat, child: nat, n: nat)
    requires Own(m0) && IsRoot(m0, parent) && IsRoot(m0, child) && parent != child && n < USERTOP
    requires Gained(m0, m, child, 0, n)
    ensures IsRoot(m, parent) && IsRoot(m, child) && Entry(m, parent, n) == Entry(m0, parent, n)
    ensures Entry(m, child, n) == Entry(m0, child, n)
    ensures HasTable(m0, parent, n) ==> HasTable(m, parent, n)
    ensures Valid(Entry(m0, parent, n)) ==>
              var q := Ppn(Entry(m0, parent, n));
              && IsBytes(m0, q) && q in m.pages && m.pages[q] == m0.pages[q] && m.pages[q].Bytes?
              && |m.pages[q].data| == PGSIZE
              && Flags(Entry(m0, parent, n)) < 1024 && !NoFlags(Flags(Entry(m0, parent, n)))
  {
    hide Entry, HasTable, Fresh;
    GainRoot(m0, m, child, 0, n, n);
    assert EntryOk(m0, parent, n);
    if Valid(Entry(m0, parent, n)) {
      assert LeafOk(m0, Ppn(Entry(m0, parent, n)));
      FlagsOfLeaf(Entry(m0, parent, n));
    }
  }

  lemma FlagsOfLeaf(pte: nat)
    requires Valid(pte) && Flags(pte) != PTE_V
    ensures Flags(pte) < 1024 && !NoFlags(Flags(pte))
  {
  }

  lemma CoversAll(m0: Mem, m: Mem, parent: nat, child: nat, n: nat)
    requires Covers(m0, m, parent, child, n) && n <= USERTOP
    ensures (forall u :: 0 <= u < n ==> HasTable(m, child, u)) <==>
            (forall u :: 0 <= u < n ==> Covered(m0, parent, child, u, n))
  {
    hide HasTable, Covered;
  }

  // ---- When uvmcopy's error path panics ----

  /** The parent's pages below n, which the child is to get copies of. */
  ghost function Copies(m0: Mem, parent: nat, n: nat): set<nat> {
    set v: nat | v < n && Valid(Entry(m0, parent, v))
  }

  /** Free pages that copying the pages below k takes. */
  ghost function CopyCost(m0: Mem, parent: nat, child: nat, n: nat, k: nat): nat {
    Cost(m0, child, Copies(m0, parent, n), k)
  }

  /** With this many free pages the copy runs out of memory at page `at`. */
  ghost predicate StopsAt(m0: Mem, parent: nat, child: nat, n: nat, free: nat, at: nat) {
    at < n && CopyCost(m0, parent, child, n, at) <= free < CopyCost(m0, parent, child, n, at + 1)
  }

  /** ... and there the child lacks a level-0 table for an earlier page. */
  ghost predicate Panics(m0: Mem, parent: nat, child: nat, n: nat, free: nat) {
    exists at: nat, u: nat :: StopsAt(m0, parent, child, n, free, at) && u < at && !Covered(m0, parent, child, u, at)
  }

  /** There is only one such page, and none if the whole copy is affordable. */
  lemma StopsOnce(m0: Mem, parent: nat, child: nat, n: nat, free: nat, at: nat)
    requires StopsAt(m0, parent, child, n, free, at)
    ensures CopyCost(m0, parent, child, n, n) > free && Valid(Entry(m0, parent, at))
    ensures forall other: nat :: StopsAt(m0, parent, child, n, free, other) ==> other == at
  {
    hide Entry, Valid, HasNode, Near;
    var add := Copies(m0, parent, n);
    CostRises(m0, child, add, at + 1, n);
    forall other: nat | StopsAt(m0, parent, child, n, free, other) ensures other == at {
      if other < at {
        CostRises(m0, child, add, other + 1, at);
      } else if at < other {
        CostRises(m0, child, add, at + 1, other);
      }
    }
  }

  lemma PanicsHere(m0: Mem, parent: nat, child: nat, n: nat, free: nat, at: nat)
    requires StopsAt(m0, parent, child, n, free, at)
    ensures CopyCost(m0, parent, child, n, n) > free
    ensures Panics(m0, parent, child, n, free) <==> exists u :: 0 <= u < at && !Covered(m0, parent, child, u, at)
  {
    hide Covered, StopsAt;
    StopsOnce(m0, parent, child, n, free, at);
    if u: nat :| u < at && !Covered(m0, parent, child, u, at) {
      assert Panics(m0, parent, child, n, free);
    }
  }

  lemma NoPanic(m0: Mem, parent: nat, child: nat, n: nat, free: nat)
    requires CopyCost(m0, parent, child, n, n) <= free
    ensures !Panics(m0, parent, child, n, free)
  {
    hide Covered, StopsAt;
    if Panics(m0, parent, child, n, free) {
      var at: nat, u: nat :| StopsAt(m0, parent, child, n, free, at) && u < at && !Covered(m0, parent, child, u, at);
      StopsOnce(m0, parent, child, n, free, at);
    }
  }

  lemma IsCopied(m0: Mem, parent: nat, n: nat, k: nat)
    requires k < n
    ensures k in Copies(m0, parent, n) <==> Valid(Entry(m0, parent, k))
  {
    hide Entry, Valid;
  }

  lemma NotCopied(m0: Mem, m: Mem, parent: nat, child: nat, n: nat, k: nat)
    requires k < n && !Valid(Entry(m0, parent, k)) && Grows(m0, m, child, Copies(m0, parent, n), k)
    ensures Grows(m0, m, child, Copies(m0, parent, n), k + 1)
    ensures CopyCost(m0, parent, child, n, k + 1) == CopyCost(m0, parent, child, n, k)
  {
    hide Entry, Valid, Grows, HasNode, Near;
    GrowsSkip(m0, m, child, Copies(m0, parent, n), k);
  }

  /** Whatever page the copy runs out of memory at, its error path finds every table. */
  ghost predicate NeverStuck(m0: Mem, parent: nat, child: nat, n: nat) {
    forall at, u :: 0 <= u < at < n && Valid(Entry(m0, parent, at)) ==> Covered(m0, parent, child, u, at)
  }

  /** Every mapped page is where some amount of free memory makes the copy stop. */
  lemma StuckPanics(m0: Mem, parent: nat, child: nat, n: nat)
    ensures (forall free: nat :: !Panics(m0, parent, child, n, free)) <==> NeverStuck(m0, parent, child, n)
  {
    hide Entry, Valid, HasNode, Near, Covered;
    if NeverStuck(m0, parent, child, n) {
      forall free: nat, at: nat, u: nat | StopsAt(m0, parent, child, n, free, at) && u < at
        ensures Covered(m0, parent, child, u, at) {
        StopsOnce(m0, parent, child, n, free, at);
      }
    } else {
      var at: nat, u: nat :| u < at < n && Valid(Entry(m0, parent, at)) && !Covered(m0, parent, child, u, at);
      assert at in Copies(m0, parent, n);
      assert StopsAt(m0, parent, child, n, CopyCost(m0, parent, child, n, at), at);
      assert Panics(m0, parent, child, n, CopyCost(m0, parent, child, n, at));
    }
  }

  /** Every group of 512 pages that starts below a valid page of the parent has a level-0
      table in the child, or a valid first page in the parent. */
  ghost predicate GroupsStart(m0: Mem, parent: nat, child: nat, n: nat) {
    forall at, u :: 0 <= u < at < n && u % NPTE == 0 && Valid(Entry(m0, parent, at)) ==>
      HasTable(m0, child, u) || Valid(Entry(m0, parent, u))
  }

  lemma {:induction false} StartUncovered(m0: Mem, parent: nat, child: nat, n: nat, u: nat, at: nat)
    requires u < at < n && u % NPTE == 0 && Valid(Entry(m0, parent, at)) && NeverStuck(m0, parent, child, n)
    ensures HasTable(m0, child, u) || Valid(Entry(m0, parent, u))
    decreases at
  {
    hide Entry, HasTable, Valid;
    assert Covered(m0, parent, child, u, at);
    if !HasTable(m0, child, u) {
      var w :| 0 <= w < at && w / NPTE == u / NPTE && Valid(Entry(m0, parent, w));
      if w != u {
        StartUncovered(m0, parent, child, n, u, w);
      }
    }
  }

  /** No amount of free memory makes uvmcopy panic exactly when groups start with a valid
      page. */
  lemma CopySafe(m0: Mem, parent: nat, child: nat, n: nat)
    ensures (forall free: nat :: !Panics(m0, parent, child, n, free)) <==> GroupsStart(m0, parent, child, n)
  {
    hide Panics, NeverStuck, GroupsStart;
    StuckPanics(m0, parent, child, n);
    StuckGroups(m0, parent, child, n);
  }

  lemma StuckGroups(m0: Mem, parent: nat, child: nat, n: nat)
    ensures NeverStuck(m0, parent, child, n) <==> GroupsStart(m0, parent, child, n)
  {
    hide Entry, NodeAt, Valid;
    if NeverStuck(m0, parent, child, n) {
      forall at, u | 0 <= u < at < n && u % NPTE == 0 && Valid(Entry(m0, parent, at))
        ensures HasTable(m0, child, u) || Valid(Entry(m0, parent, u))
      {
        StartUncovered(m0, parent, child, n, u, at);
      }
    }
    if GroupsStart(m0, parent, child, n) {
      forall at, u | 0 <= u < at < n && Valid(Entry(m0, parent, at)) ensures Covered(m0, parent, child, u, at) {
        var g := u / NPTE * NPTE;
        assert g / NPTE == u / NPTE && g <= u && g % NPTE == 0;
        assert HasTable(m0, child, g) || Valid(Entry(m0, parent, g));
        TableGroup(m0, child, u, g, 0);
      }
    }
  }

  /** A parent that maps page 1 but not page 0, and a child with no tables. */
  ghost predicate Hole(m: Mem, parent: nat, child: nat) {
    && IsRoot(m, parent) && IsRoot(m, child) && parent != child
    && HoleAt(m, parent) && (forall v :: 0 <= v < 2 ==> Entry(m, child, v) == 0 && !HasTable(m, child, v))
  }

  ghost predicate HoleAt(m: Mem, parent: nat) {
    && !Valid(Entry(m, parent, 0)) && Valid(Entry(m, parent, 1))
    && forall v :: 0 <= v < 2 ==> HasTable(m, parent, v)
  }

  /** Out of memory at page 1, the error path finds no table. */
  lemma HoleStuck(m0: Mem, parent: nat, child: nat)
    requires Hole(m0, parent, child)
    ensures Panics(m0, parent, child, 2, 0)
  {
    hide Entry, HasTable, Valid, HasNode, Near;
    var add := Copies(m0, parent, 2);
    assert 0 !in add && 1 in add;
    assert Cost(m0, child, add, 1) == 0;
    assert StopsAt(m0, parent, child, 2, 0, 1) && !Covered(m0, parent, child, 0, 1);
  }

  /** Two zero pages less the first leave a hole. */
  lemma HoleMade(m1: Mem, m2: Mem, parent: nat)
    requires IsRoot(m1, parent) && ZeroPages(m1, parent, 0, 2) && Cleared(m1, m2, parent, 0, 1, true)
    ensures IsRoot(m2, parent) && HoleAt(m2, parent)
  {
    hide Entry, HasTable;
    ZeroTables(m1, parent, 0, 2);
    assert ZeroAt(m1, parent, 1);
    assert !Valid(0);
  }

  lemma HoleForChild(m: Mem, m': Mem, parent: nat, child: nat)
    requires IsRoot(m, parent) && HoleAt(m, parent) && IsRoot(m', parent) && IsRoot(m', child) && !IsRoot(m, child)
    requires forall v :: Entry(m', child, v) == 0 && !HasTable(m', child, v)
    requires forall k, v :: IsRoot(m, k) && 0 <= v < MAXVPN ==>
             Entry(m', k, v) == Entry(m, k, v) && HasTable(m', k, v) == HasTable(m, k, v)
    ensures Hole(m', parent, child)
  {
    hide Entry, HasTable, Valid;
  }

  lemma HoleKept(m: Mem, m': Mem, parent: nat, child: nat)
    requires Hole(m, parent, child) && SameMaps(m, m') && SameTables(m, m')
    ensures Hole(m', parent, child)
  {
    hide Entry, HasTable, Valid;
  }

  lemma HoleFacts(m: Mem, parent: nat, child: nat)
    requires Hole(m, parent, child)
    ensures IsRoot(m, parent) && IsRoot(m, child) && parent != child
    ensures !Valid(Entry(m, parent, 0)) && Valid(Entry(m, parent, 1))
    ensures forall v :: 0 <= v < 2 ==> HasTable(m, parent, v) && !Valid(Entry(m, child, v))
  {
    hide Entry, HasTable;
    assert !Valid(0);
  }
}
