/** How many free pages it takes to map given pages in a table, nodes included: what
    decides whether uvmalloc and uvmcopy succeed (kernel/vm.c:219-248, 301-336). */
module PageCost {
  import opened Common
  import opened PageTables
  import opened MemChanges

  // ---- Nodes made on the way to pages ----

  /** Nodes stay, and new ones are on the paths of r's pages lo .. hi. */
  ghost predicate OnPaths(m: Mem, m': Mem, r: nat, lo: nat, hi: nat) {
    && m'.role.Keys == m.role.Keys
    && forall q :: q in m.role && (m.role[q].Node? || m'.role[q].Node?) ==>
       m'.role[q] == m.role[q] || (!m.role[q].Node? && MadeFor(m'.role[q], r, lo, hi))
  }

  predicate MadeFor(n: Role, r: nat, lo: nat, hi: nat) {
    n.Node? && n.root == r && n.level < 2 && Pre(lo, n.level) <= n.pre <= Pre(hi, n.level)
  }

  /** One node made for v. */
  lemma PathsNode(m: Mem, m': Mem, r: nat, v: nat, c: nat, l: nat, up: nat)
    requires l < 2 && c in m.role && !m.role[c].Node? && m'.role == m.role[c := Node(r, l, Pre(v, l), up)]
    ensures OnPaths(m, m', r, v, v)
  {
    hide Pre;
  }

  lemma PathsSame(m: Mem, m': Mem, r: nat, lo: nat, hi: nat)
    requires m'.role.Keys == m.role.Keys
    requires forall q :: q in m.role && (m.role[q].Node? || m'.role[q].Node?) ==> m'.role[q] == m.role[q]
    ensures OnPaths(m, m', r, lo, hi)
  {
  }

  lemma PathsTrans(m: Mem, m1: Mem, m2: Mem, r: nat, lo: nat, hi: nat)
    requires OnPaths(m, m1, r, lo, hi) && OnPaths(m1, m2, r, lo, hi)
    ensures OnPaths(m, m2, r, lo, hi)
  {
    hide Pre;
  }

  lemma PathsWider(m: Mem, m': Mem, r: nat, v: nat, lo: nat, hi: nat)
    requires OnPaths(m, m', r, v, v) && lo <= v <= hi
    ensures OnPaths(m, m', r, lo, hi)
  {
  }

  ghost predicate HasNode(m: Mem, r: nat, u: nat, l: nat)
    requires l < 2
  {
    NodeAt(m, r, u, l).Some?
  }

  /** After the path of v is there, exactly its nodes are new. */
  lemma PathNodes(m: Mem, m': Mem, r: nat, v: nat, u: nat, l: nat)
    requires Tree(m) && Tree(m') && IsRoot(m, r) && IsRoot(m', r) && OnPaths(m, m', r, v, v) && HasTable(m', r, v)
    requires v < MAXVPN && u < MAXVPN && l < 2
    ensures HasNode(m', r, u, l) <==> HasNode(m, r, u, l) || Pre(u, l) == Pre(v, l)
  {
    hide Tree, Pre;
    if HasNode(m, r, u, l) {
      NodeAtRole(m, r, u, l);
      RoleNodeAt(m', NodeAt(m, r, u, l).value, r, u, l);
    }
    if Pre(u, l) == Pre(v, l) {
      assert NodeAt(m', r, v, l).Some?;
      NodeAtRole(m', r, v, l);
      RoleNodeAt(m', NodeAt(m', r, v, l).value, r, u, l);
    }
    if HasNode(m', r, u, l) {
      NodeAtRole(m', r, u, l);
      var p := NodeAt(m', r, u, l).value;
      if m.role[p] == m'.role[p] {
        RoleNodeAt(m, p, r, u, l);
      }
    }
  }

  lemma NodeRole(m: Mem, p: nat, r: nat, vpn: nat, l: nat)
    requires Tree(m) && IsRoot(m, r) && vpn < MAXVPN && 1 <= l <= 2 && NodeAt(m, r, vpn, l) == Some(p)
    ensures p in m.role && m.role[p].Node? && m.role[p].level == l
    ensures m.role[p].pre * NPTE + Idx(vpn, l) == Pre(vpn, l - 1)
  {
    hide Tree;
    NodeAtRole(m, r, vpn, l);
    PreStep(vpn, l);
  }

  lemma GainTable(m1: Mem, m4: Mem, r: nat, v: nat, p: nat, pg: Page, perm: nat)
    requires perm < 1024 && GainedOne(m1, m4, r, v, p, pg, perm)
    ensures HasTable(m4, r, v)
  {
  }

  // ---- The cost ----

  /** The pages lo .. hi. */
  ghost function Range(lo: nat, hi: nat): set<nat> {
    set v: nat | v < hi && AtLeast(v, lo)
  }

  predicate AtLeast(v: nat, lo: nat) {
    lo <= v
  }

  /** A page of `add` below k shares u's node at level l. */
  ghost predicate Near(add: set<nat>, u: nat, k: nat, l: nat)
    requires l < 2
  {
    exists w :: w in add && w < k && Pre(w, l) == Pre(u, l)
  }

  ghost function NodeCost(m: Mem, r: nat, add: set<nat>, v: nat, l: nat): nat
    requires l < 2
  {
    if HasNode(m, r, v, l) || Near(add, v, v, l) then 0 else 1
  }

  /** Free pages that mapping the pages of `add` below k in table r takes: each page, and
      each node that is not there and that no earlier page has brought. */
  ghost function Cost(m: Mem, r: nat, add: set<nat>, k: nat): nat {
    if k == 0 then 0
    else Cost(m, r, add, k - 1) + if k - 1 in add then 1 + NodeCost(m, r, add, k - 1, 0) + NodeCost(m, r, add, k - 1, 1)
      else 0
  }

  lemma {:induction false} CostRises(m: Mem, r: nat, add: set<nat>, j: nat, k: nat)
    requires j <= k
    ensures Cost(m, r, add, j) <= Cost(m, r, add, k)
  {
    if j < k {
      CostRises(m, r, add, j, k - 1);
    }
  }

  lemma {:induction false} CostNone(m: Mem, r: nat, add: set<nat>, k: nat)
    requires forall w :: w in add ==> w >= k
    ensures Cost(m, r, add, k) == 0
  {
    if k > 0 {
      CostNone(m, r, add, k - 1);
    }
  }

  /** Mapping a page takes one to three free pages. */
  lemma {:induction false} CostBounds(m: Mem, r: nat, add: set<nat>, k: nat)
    ensures Cost(m, r, add, k) <= 3 * k
  {
    if k > 0 {
      CostBounds(m, r, add, k - 1);
    }
  }

  /** The pages of `add` below k have been mapped in r, starting from m0: so much for its
      nodes. */
  ghost predicate Grows(m0: Mem, m: Mem, r: nat, add: set<nat>, k: nat) {
    forall u, l :: 0 <= u < MAXVPN && 0 <= l < 2 ==>
      (HasNode(m, r, u, l) <==> HasNode(m0, r, u, l) || Near(add, u, k, l))
  }

  lemma GrowsNone(m: Mem, r: nat, add: set<nat>, k: nat)
    requires forall w :: w in add ==> w >= k
    ensures Grows(m, m, r, add, k)
  {
    hide HasNode, Pre;
  }

  lemma GrowsSkip(m0: Mem, m: Mem, r: nat, add: set<nat>, k: nat)
    requires Grows(m0, m, r, add, k) && k !in add
    ensures Grows(m0, m, r, add, k + 1)
  {
    hide HasNode, Pre;
    forall u, l | 0 <= u < MAXVPN && 0 <= l < 2 ensures Near(add, u, k + 1, l) == Near(add, u, k, l) {
    }
  }

  lemma NearMore(add: set<nat>, u: nat, k: nat, l: nat)
    requires k in add && l < 2
    ensures Near(add, u, k + 1, l) <==> Near(add, u, k, l) || Pre(u, l) == Pre(k, l)
  {
    hide Pre;
  }

  lemma GrowsMore(m0: Mem, m1: Mem, m2: Mem, r: nat, add: set<nat>, k: nat)
    requires Grows(m0, m1, r, add, k) && k in add && k < MAXVPN
    requires Tree(m1) && Tree(m2) && IsRoot(m1, r) && IsRoot(m2, r) && OnPaths(m1, m2, r, k, k) && HasTable(m2, r, k)
    ensures Grows(m0, m2, r, add, k + 1)
  {
    hide Tree, HasNode, Pre, Near, OnPaths, HasTable;
    forall u: nat, l: nat | u < MAXVPN && l < 2
      ensures HasNode(m2, r, u, l) <==> HasNode(m0, r, u, l) || Near(add, u, k + 1, l)
    {
      PathNodes(m1, m2, r, k, u, l);
      NearMore(add, u, k, l);
    }
  }

  /** The next page of `add` misses just the nodes that the cost counts. */
  lemma GrowsMissing(m0: Mem, m: Mem, r: nat, add: set<nat>, k: nat)
    requires Grows(m0, m, r, add, k) && k < MAXVPN && k in add
    ensures Cost(m0, r, add, k + 1) == Cost(m0, r, add, k) + 1 + Missing(m, r, k)
  {
    hide Near;
    assert HasNode(m, r, k, 0) <==> HasNode(m0, r, k, 0) || Near(add, k, k, 0);
    assert HasNode(m, r, k, 1) <==> HasNode(m0, r, k, 1) || Near(add, k, k, 1);
  }
}
