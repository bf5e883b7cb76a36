/** Directory entries and link counts (kernel/fs.c:529-583, kernel/sysfile.c:120-295):
    how many entries name an inode, and what a sound directory tree looks like. */
module LinkSpec {

  const ROOTINO: nat := 1

  /** A directory holds at most MAXFILE * BSIZE bytes of 16-byte entries. */
  const MAXENTS := 17152

  const DIRSIZ := 14

  type Name = s: string | |s| <= DIRSIZ

  datatype Dirent = Dirent(inum: nat, name: Name)

  datatype Type = Unused | Dir | File | Device

  /** nlink is a short, which wraps. */
  const SHRT_MAX := 0x7fff
  type Short = x: int | -0x8000 <= x <= SHRT_MAX

  function Wrap(x: int): Short {
    (x + 0x8000) % 0x1_0000 - 0x8000
  }

  /** An inode as far as links go; `ents` is a directory's content. */
  datatype Node = Node(kind: Type, nlink: Short, ents: seq<Dirent>)

  /** Where a directory is entered: entry k of directory d. */
  datatype Loc = Loc(d: nat, k: nat)

  // ---- Counting ----

  /** e names inode i, and is not ".". */
  predicate Names(e: Dirent, i: nat) {
    e.inum == i && e.name != "."
  }

  function One(b: bool): nat {
    if b then 1 else 0
  }

  function CountIn(es: seq<Dirent>, i: nat): nat {
    if es == [] then 0 else CountIn(es[..|es| - 1], i) + One(Names(es[|es| - 1], i))
  }

  /** A directory that is still in the tree. */
  predicate Linked(n: Node) {
    n.kind == Dir && n.nlink > 0
  }

  function Share(n: Node, i: nat): nat {
    if Linked(n) then CountIn(n.ents, i) else 0
  }

  /** Entries naming i in all linked directories. */
  function Total(ns: seq<Node>, i: nat): nat {
    if ns == [] then 0 else Total(ns[..|ns| - 1], i) + Share(ns[|ns| - 1], i)
  }

  lemma {:induction false} CountSet(es: seq<Dirent>, k: nat, e: Dirent, i: nat)
    requires k < |es|
    ensures CountIn(es[k := e], i) + One(Names(es[k], i)) == CountIn(es, i) + One(Names(e, i))
    decreases |es|
  {
    var m := |es| - 1;
    if k < m {
      assert es[k := e][..m] == es[..m][k := e];
      CountSet(es[..m], k, e, i);
    } else {
      assert es[k := e][..m] == es[..m];
    }
  }

  lemma CountAdd(es: seq<Dirent>, e: Dirent, i: nat)
    ensures CountIn(es + [e], i) == CountIn(es, i) + One(Names(e, i))
  {
    assert (es + [e])[..|es|] == es;
  }

  lemma {:induction false} CountPos(es: seq<Dirent>, k: nat, i: nat)
    requires k < |es| && Names(es[k], i)
    ensures CountIn(es, i) >= 1
    decreases |es|
  {
    if k < |es| - 1 {
      CountPos(es[..|es| - 1], k, i);
    }
  }

  lemma {:induction false} CountNone(es: seq<Dirent>, i: nat)
    requires forall k :: 0 <= k < |es| ==> !Names(es[k], i)
    ensures CountIn(es, i) == 0
    decreases |es|
  {
    if es != [] {
      CountNone(es[..|es| - 1], i);
    }
  }

  lemma {:induction false} TotalSet(ns: seq<Node>, d: nat, n: Node, i: nat)
    requires d < |ns|
    ensures Total(ns[d := n], i) + Share(ns[d], i) == Total(ns, i) + Share(n, i)
    decreases |ns|
  {
    hide Share;
    var m := |ns| - 1;
    if d < m {
      assert ns[d := n][..m] == ns[..m][d := n];
      TotalSet(ns[..m], d, n, i);
    } else {
      assert ns[d := n][..m] == ns[..m];
    }
  }

  lemma {:induction false} TotalAtLeast(ns: seq<Node>, d: nat, i: nat)
    requires d < |ns|
    ensures Total(ns, i) >= Share(ns[d], i)
    decreases |ns|
  {
    hide Share;
    if d < |ns| - 1 {
      TotalAtLeast(ns[..|ns| - 1], d, i);
    }
  }

  lemma {:induction false} TotalOne(ns: seq<Node>, d: nat, i: nat)
    requires d < |ns| && forall c :: 0 <= c < |ns| && c != d ==> Share(ns[c], i) == 0
    ensures Total(ns, i) == Share(ns[d], i)
    decreases |ns|
  {
    hide Share;
    var m := |ns| - 1;
    if d < m {
      TotalOne(ns[..m], d, i);
    } else {
      TotalZero(ns[..m], i);
    }
  }

  lemma {:induction false} TotalZero(ns: seq<Node>, i: nat)
    requires forall c :: 0 <= c < |ns| ==> Share(ns[c], i) == 0
    ensures Total(ns, i) == 0
    decreases |ns|
  {
    hide Share;
    if ns != [] {
      TotalZero(ns[..|ns| - 1], i);
    }
  }

  // ---- The tree ----

  /** Every inode's link count is the number of entries naming it. */
  ghost predicate CountOk(ns: seq<Node>, i: nat)
    requires i < |ns|
  {
    if ns[i].kind == Unused then Total(ns, i) == 0 else ns[i].nlink == Total(ns, i)
  }

  /** A linked directory starts with "." and "..", which names where it is entered. */
  ghost predicate DirOk(ns: seq<Node>, loc: seq<Loc>, d: nat)
    requires d < |ns| == |loc|
  {
    Linked(ns[d]) ==>
      && |ns[d].ents| >= 2 && ns[d].ents[0] == Dirent(d, ".") && ns[d].ents[1].name == ".." && d > 0
      && if d == ROOTINO then ns[d].ents[1].inum == ROOTINO
         else
           && loc[d].d < |ns| && loc[d].d != d && Linked(ns[loc[d].d]) && 2 <= loc[d].k < |ns[loc[d].d].ents|
           && ns[loc[d].d].ents[loc[d].k].inum == d && ns[d].ents[1].inum == loc[d].d
  }

  /** An entry after those names a file, or a directory that is entered just there. */
  ghost predicate EntOk(ns: seq<Node>, loc: seq<Loc>, d: nat, k: nat)
    requires d < |ns| == |loc| && k < |ns[d].ents|
  {
    var e := ns[d].ents[k];
    && e.name != "." && e.name != ".."
    && (e.inum != 0 ==>
          && e.inum < |ns| && ns[e.inum].kind != Unused
          && (ns[e.inum].kind == Dir ==> Linked(ns[e.inum]) && e.inum != ROOTINO && loc[e.inum] == Loc(d, k)))
  }

  /** A directory that was removed while in use still has its dots and nothing else. */
  ghost predicate DeadOk(ns: seq<Node>, d: nat)
    requires d < |ns|
  {
    ns[d].kind == Dir && !Linked(ns[d]) ==>
      && |ns[d].ents| >= 2 && ns[d].ents[0] == Dirent(d, ".") && ns[d].ents[1].name == ".." && d > 0
      && 0 < ns[d].ents[1].inum < |ns| && ns[d].ents[1].inum != d && NoneAfter(ns[d].ents)
  }

  ghost predicate Tree(ns: seq<Node>, loc: seq<Loc>) {
    && |loc| == |ns| && ROOTINO < |ns| && Linked(ns[ROOTINO])
    && (forall d :: 0 <= d < |ns| ==> DirOk(ns, loc, d) && DeadOk(ns, d))
    && (forall d, k :: 0 <= d < |ns| && Linked(ns[d]) && 2 <= k < |ns[d].ents| ==> EntOk(ns, loc, d, k))
  }

  ghost predicate Counts(ns: seq<Node>) {
    forall i :: 0 < i < |ns| ==> CountOk(ns, i)
  }

  ghost predicate Ok(ns: seq<Node>, loc: seq<Loc>) {
    Tree(ns, loc) && Counts(ns)
  }

  // ---- Entries ----

  /** The first empty entry from `from` on, or the end. */
  function FirstEmpty(es: seq<Dirent>, from: nat): (k: nat)
    requires from <= |es|
    ensures from <= k <= |es| && (k < |es| ==> es[k].inum == 0) && forall j :: from <= j < k ==> es[j].inum != 0
    decreases |es| - from
  {
    if from == |es| || es[from].inum == 0 then from else FirstEmpty(es, from + 1)
  }

  /** The first entry with this name from `from` on, or the end. */
  function FindName(es: seq<Dirent>, name: Name, from: nat): (k: nat)
    requires from <= |es|
    ensures from <= k <= |es| && (k < |es| ==> es[k].inum != 0 && es[k].name == name)
    ensures forall j :: from <= j < k ==> es[j].inum == 0 || es[j].name != name
    decreases |es| - from
  {
    if from == |es| || (es[from].inum != 0 && es[from].name == name) then from else FindName(es, name, from + 1)
  }

  predicate Has(es: seq<Dirent>, name: Name) {
    FindName(es, name, 0) < |es|
  }

  function PutEnt(es: seq<Dirent>, e: Dirent): seq<Dirent> {
    var k := FirstEmpty(es, 0);
    if k < |es| then es[k := e] else es + [e]
  }

  predicate NoneAfter(es: seq<Dirent>) {
    forall k :: 2 <= k < |es| ==> es[k].inum == 0
  }

  lemma PutEntAt(es: seq<Dirent>, e: Dirent)
    ensures var k, es' := FirstEmpty(es, 0), PutEnt(es, e);
            && k < |es'| && es'[k] == e && |es'| == (if k < |es| then |es| else |es| + 1)
            && forall j :: 0 <= j < |es| && j != k ==> es'[j] == es[j]
  {
  }

  lemma PutEntCount(es: seq<Dirent>, e: Dirent, i: nat)
    requires i != 0
    ensures CountIn(PutEnt(es, e), i) == CountIn(es, i) + One(Names(e, i))
  {
    var k := FirstEmpty(es, 0);
    if k < |es| {
      CountSet(es, k, e, i);
    } else {
      CountAdd(es, e, i);
    }
  }

  /** In a linked directory "." and ".." are there, so a new entry comes after them. */
  lemma EmptyAfterDots(ns: seq<Node>, loc: seq<Loc>, d: nat)
    requires Tree(ns, loc) && d < |ns| && Linked(ns[d])
    ensures FirstEmpty(ns[d].ents, 0) >= 2 && |ns[d].ents| >= 2
    ensures Has(ns[d].ents, ".") && Has(ns[d].ents, "..")
  {
    assert DirOk(ns, loc, d);
    if d != ROOTINO {
      assert DirOk(ns, loc, loc[d].d);
    }
    assert ns[d].ents[0].inum != 0 && ns[d].ents[1].inum != 0;
  }

  // ---- link ----

  function WithEnt(n: Node, e: Dirent): Node {
    Node(n.kind, n.nlink, PutEnt(n.ents, e))
  }

  /** Inode i has one link more, named `name` in directory d. */
  function LinkedTo(ns: seq<Node>, d: nat, name: Name, i: nat): seq<Node>
    requires d < |ns| && i < |ns|
  {
    var ms := ns[i := Node(ns[i].kind, Wrap(ns[i].nlink + 1), ns[i].ents)];
    ms[d := WithEnt(ms[d], Dirent(i, name))]
  }

  lemma LinkTotal(ns: seq<Node>, d: nat, name: Name, i: nat, x: nat)
    requires d < |ns| && i < |ns| && i != d && ns[i].kind != Dir && Linked(ns[d]) && x != 0 && name != "."
    ensures Total(LinkedTo(ns, d, name, i), x) == Total(ns, x) + One(x == i)
  {
    var ms := ns[i := Node(ns[i].kind, Wrap(ns[i].nlink + 1), ns[i].ents)];
    TotalSet(ns, i, ms[i], x);
    TotalSet(ms, d, WithEnt(ms[d], Dirent(i, name)), x);
    PutEntCount(ns[d].ents, Dirent(i, name), x);
  }

  lemma LinkTree(ns: seq<Node>, loc: seq<Loc>, d: nat, name: Name, i: nat)
    requires Tree(ns, loc) && d < |ns| && 0 < i < |ns| && Linked(ns[d]) && (ns[i].kind == File || ns[i].kind == Device)
    requires name != "." && name != ".."
    ensures Tree(LinkedTo(ns, d, name, i), loc)
  {
    hide PutEnt, FirstEmpty;
    var ns' := LinkedTo(ns, d, name, i);
    EmptyAfterDots(ns, loc, d);
    PutEntAt(ns[d].ents, Dirent(i, name));
    forall c | 0 <= c < |ns'| ensures DirOk(ns', loc, c) && DeadOk(ns', c) {
      assert DirOk(ns, loc, c) && DeadOk(ns, c);
    }
    forall c, k | 0 <= c < |ns'| && Linked(ns'[c]) && 2 <= k < |ns'[c].ents| ensures EntOk(ns', loc, c, k) {
      if c != d || k != FirstEmpty(ns[d].ents, 0) {
        assert EntOk(ns, loc, c, k);
      }
    }
  }

  lemma LinkOk(ns: seq<Node>, loc: seq<Loc>, d: nat, name: Name, i: nat)
    requires Ok(ns, loc) && d < |ns| && 0 < i < |ns| && Linked(ns[d]) && (ns[i].kind == File || ns[i].kind == Device)
    requires ns[i].nlink < SHRT_MAX && name != "." && name != ".."
    ensures Ok(LinkedTo(ns, d, name, i), loc)
  {
    hide Tree, Total, WithEnt;
    LinkTree(ns, loc, d, name, i);
    var ns' := LinkedTo(ns, d, name, i);
    forall x | 0 < x < |ns'| ensures CountOk(ns', x) {
      assert CountOk(ns, x);
      LinkTotal(ns, d, name, i, x);
      LinkNode(ns, d, name, i, x);
    }
  }

  lemma LinkNode(ns: seq<Node>, d: nat, name: Name, i: nat, x: nat)
    requires d < |ns| && i < |ns| && x < |ns| && i != d
    ensures var n := LinkedTo(ns, d, name, i)[x]; n.kind == ns[x].kind && n.nlink == Wrap(ns[x].nlink + One(x == i))
  {
  }

  /** A link from a directory that is no longer in the tree, or one too many for a short,
      leaves a wrong count. */
  lemma LinkBroken(ns: seq<Node>, d: nat, name: Name, i: nat)
    requires Counts(ns) && d < |ns| && 0 < i < |ns| && i != d && (ns[i].kind == File || ns[i].kind == Device)
    requires ns[d].kind == Dir && !(Linked(ns[d]) && ns[i].nlink < SHRT_MAX)
    ensures !Counts(LinkedTo(ns, d, name, i))
  {
    hide Total, CountIn, PutEnt;
    var ns' := LinkedTo(ns, d, name, i);
    assert CountOk(ns, i);
    LinkNode(ns, d, name, i, i);
    if ns[i].nlink < SHRT_MAX {
      var ms := ns[i := Node(ns[i].kind, Wrap(ns[i].nlink + 1), ns[i].ents)];
      TotalSet(ns, i, ms[i], i);
      TotalSet(ms, d, WithEnt(ms[d], Dirent(i, name)), i);
    }
    assert !CountOk(ns', i);
  }

  // ---- unlink ----

  const NOENT: Dirent := Dirent(0, "")

  /** Entry k of d is gone, and inode i, a file, has one link less. */
  function FileUnlinked(ns: seq<Node>, d: nat, k: nat, i: nat): seq<Node>
    requires d < |ns| && i < |ns| && k < |ns[d].ents| && i != d
  {
    ns[d := Node(ns[d].kind, ns[d].nlink, ns[d].ents[k := NOENT])]
      [i := Node(ns[i].kind, Wrap(ns[i].nlink - 1), ns[i].ents)]
  }

  lemma FileUnlinkedOk(ns: seq<Node>, loc: seq<Loc>, d: nat, k: nat)
    requires Ok(ns, loc) && d < |ns| && Linked(ns[d]) && 2 <= k < |ns[d].ents|
    requires var i := ns[d].ents[k].inum; 0 < i < |ns| && (ns[i].kind == File || ns[i].kind == Device)
    ensures Ok(FileUnlinked(ns, d, k, ns[d].ents[k].inum), loc)
  {
    hide Total, CountIn;
    var i := ns[d].ents[k].inum;
    var ns' := FileUnlinked(ns, d, k, i);
    assert EntOk(ns, loc, d, k);
    forall x | 0 < x < |ns'| ensures CountOk(ns', x) {
      assert CountOk(ns, x);
      FileUnlinkTotal(ns, d, k, i, x);
    }
    forall c | 0 <= c < |ns'| ensures DirOk(ns', loc, c) && DeadOk(ns', c) {
      assert DirOk(ns, loc, c) && DeadOk(ns, c);
    }
    forall c, j | 0 <= c < |ns'| && Linked(ns'[c]) && 2 <= j < |ns'[c].ents| ensures EntOk(ns', loc, c, j) {
      assert EntOk(ns, loc, c, j);
    }
  }

  lemma FileUnlinkTotal(ns: seq<Node>, d: nat, k: nat, i: nat, x: nat)
    requires d < |ns| && i < |ns| && k < |ns[d].ents| && i != d && ns[i].kind != Dir && Linked(ns[d]) && x != 0
    requires ns[d].ents[k].inum == i && ns[d].ents[k].name != "."
    ensures Total(FileUnlinked(ns, d, k, i), x) + One(x == i) == Total(ns, x)
  {
    var n := Node(ns[d].kind, ns[d].nlink, ns[d].ents[k := NOENT]);
    var ms := ns[d := n];
    TotalSet(ns, d, n, x);
    CountSet(ns[d].ents, k, NOENT, x);
    TotalSet(ms, i, Node(ns[i].kind, Wrap(ns[i].nlink - 1), ns[i].ents), x);
  }

  /** Only its parent's entry names an empty directory. */
  lemma EmptyDirOnce(ns: seq<Node>, loc: seq<Loc>, c: nat)
    requires Ok(ns, loc) && 0 < c < |ns| && c != ROOTINO && Linked(ns[c]) && NoneAfter(ns[c].ents)
    ensures ns[c].nlink == 1
  {
    hide Total, CountIn, Share;
    assert CountOk(ns, c) && DirOk(ns, loc, c);
    var d, k := loc[c].d, loc[c].k;
    forall x | 0 <= x < |ns| && x != d ensures Share(ns[x], c) == 0 {
      NotNamed(ns, loc, c, x);
    }
    TotalOne(ns, d, c);
    NamedOnce(ns, loc, c);
  }

  lemma NotNamed(ns: seq<Node>, loc: seq<Loc>, c: nat, x: nat)
    requires Tree(ns, loc) && 0 < c < |ns| && c != ROOTINO && Linked(ns[c]) && NoneAfter(ns[c].ents) && x < |ns|
    requires x != loc[c].d
    ensures Share(ns[x], c) == 0
  {
    hide CountIn;
    if Linked(ns[x]) {
      assert DirOk(ns, loc, x);
      forall k | 0 <= k < |ns[x].ents| ensures !Names(ns[x].ents[k], c) {
        if k >= 2 {
          assert EntOk(ns, loc, x, k);
        }
      }
      CountNone(ns[x].ents, c);
    }
  }

  lemma NamedOnce(ns: seq<Node>, loc: seq<Loc>, c: nat)
    requires Tree(ns, loc) && 0 < c < |ns| && c != ROOTINO && Linked(ns[c]) && NoneAfter(ns[c].ents)
    ensures loc[c].d < |ns| && Share(ns[loc[c].d], c) == 1
  {
    hide CountIn;
    assert DirOk(ns, loc, c);
    var d, k := loc[c].d, loc[c].k;
    var es := ns[d].ents;
    assert EntOk(ns, loc, d, k) && DirOk(ns, loc, d);
    var fs := es[k := NOENT];
    forall j | 0 <= j < |fs| ensures !Names(fs[j], c) {
      if j >= 2 {
        assert EntOk(ns, loc, d, j);
      }
    }
    CountNone(fs, c);
    CountSet(es, k, NOENT, c);
  }

  /** Entry k of d is gone; directory i, which it named, and d have one link less. */
  function DirUnlinked(ns: seq<Node>, d: nat, k: nat, i: nat): seq<Node>
    requires d < |ns| && i < |ns| && k < |ns[d].ents| && i != d
  {
    ns[d := Node(ns[d].kind, Wrap(ns[d].nlink - 1), ns[d].ents[k := NOENT])][i :=
      Node(ns[i].kind, Wrap(ns[i].nlink - 1), ns[i].ents)]
  }

  lemma EmptyShare(n: Node, c: nat, d: nat, x: nat)
    requires Linked(n) && |n.ents| >= 2 && n.ents[0] == Dirent(c, ".") && n.ents[1] == Dirent(d, "..")
    requires NoneAfter(n.ents) && x != 0
    ensures Share(n, x) == One(x == d)
  {
    hide CountIn;
    var es := n.ents[1 := NOENT];
    forall k | 0 <= k < |es| ensures !Names(es[k], x) {
    }
    CountNone(es, x);
    CountSet(n.ents, 1, NOENT, x);
  }

  lemma DirUnlinkTotal(ns: seq<Node>, d: nat, k: nat, i: nat, x: nat)
    requires d < |ns| && i < |ns| && k < |ns[d].ents| && i != d && ns[d].kind == Dir && ns[d].nlink > 1 && x != 0
    requires ns[d].ents[k].inum == i && ns[d].ents[k].name != "." && ns[i].kind == Dir && ns[i].nlink == 1
    requires |ns[i].ents| >= 2 && ns[i].ents[0] == Dirent(i, ".") && ns[i].ents[1] == Dirent(d, "..")
    requires NoneAfter(ns[i].ents)
    ensures Total(DirUnlinked(ns, d, k, i), x) + One(x == i) + One(x == d) == Total(ns, x)
  {
    hide CountIn, Total;
    var n := Node(ns[d].kind, Wrap(ns[d].nlink - 1), ns[d].ents[k := NOENT]);
    var ms := ns[d := n];
    TotalSet(ns, d, n, x);
    CountSet(ns[d].ents, k, NOENT, x);
    TotalSet(ms, i, Node(ns[i].kind, Wrap(ns[i].nlink - 1), ns[i].ents), x);
    EmptyShare(ns[i], i, d, x);
  }

  /** A directory with a subdirectory has at least two links. */
  lemma ParentLinks(ns: seq<Node>, loc: seq<Loc>, c: nat)
    requires Ok(ns, loc) && 0 < c < |ns| && c != ROOTINO && Linked(ns[c])
    ensures loc[c].d < |ns| && ns[loc[c].d].nlink > 1
  {
    hide CountIn, Total, Share;
    assert DirOk(ns, loc, c);
    var d := loc[c].d;
    assert DirOk(ns, loc, d);
    assert CountOk(ns, d);
    var x := if d == ROOTINO then d else loc[d].d;
    HalfLinks(ns, loc, c, d, x);
  }

  lemma HalfLinks(ns: seq<Node>, loc: seq<Loc>, c: nat, d: nat, x: nat)
    requires Tree(ns, loc) && 0 < c < |ns| && c != ROOTINO && Linked(ns[c]) && d == loc[c].d && d < |ns|
    requires DirOk(ns, loc, d) && DirOk(ns, loc, c)
    requires Linked(ns[d]) && x == (if d == ROOTINO then d else loc[d].d) && x < |ns|
    ensures Total(ns, d) >= 2
  {
    hide CountIn, Total, Share;
    ShareOne(ns[c], 1, d);
    if d == ROOTINO {
      ShareOne(ns[d], 1, d);
    } else {
      assert EntOk(ns, loc, x, loc[d].k);
      ShareOne(ns[x], loc[d].k, d);
    }
    if x != c {
      TotalTwo(ns, c, x, d);
    } else {
      assert EntOk(ns, loc, c, loc[d].k);
      ShareTwo(ns[c], 1, loc[d].k, d);
      TotalAtLeast(ns, c, d);
    }
  }

  lemma ShareOne(n: Node, k: nat, i: nat)
    requires Linked(n) && k < |n.ents| && Names(n.ents[k], i)
    ensures Share(n, i) >= 1
  {
    hide CountIn;
    CountPos(n.ents, k, i);
  }

  lemma ShareTwo(n: Node, k: nat, j: nat, i: nat)
    requires Linked(n) && k < |n.ents| && j < |n.ents| && k != j && Names(n.ents[k], i) && Names(n.ents[j], i) && i != 0
    ensures Share(n, i) >= 2
  {
    hide CountIn;
    CountPos(n.ents[k := NOENT], j, i);
    CountSet(n.ents, k, NOENT, i);
  }

  lemma TotalTwo(ns: seq<Node>, c: nat, x: nat, i: nat)
    requires c < |ns| && x < |ns| && c != x && Share(ns[c], i) >= 1 && Share(ns[x], i) >= 1
    ensures Total(ns, i) >= 2
  {
    hide Total, CountIn;
    var none := Node(Unused, 0, []);
    TotalAtLeast(ns[c := none], x, i);
    TotalSet(ns, c, none, i);
  }

  lemma DirUnlinkedTree(ns: seq<Node>, loc: seq<Loc>, d: nat, k: nat)
    requires Tree(ns, loc) && d < |ns| && Linked(ns[d]) && ns[d].nlink > 1 && 2 <= k < |ns[d].ents|
    requires var i := ns[d].ents[k].inum;
             0 < i < |ns| && i != d && ns[i].kind == Dir && ns[i].nlink == 1 && NoneAfter(ns[i].ents)
    ensures Tree(DirUnlinked(ns, d, k, ns[d].ents[k].inum), loc)
  {
    var i := ns[d].ents[k].inum;
    var ns' := DirUnlinked(ns, d, k, i);
    assert EntOk(ns, loc, d, k) && DirOk(ns, loc, d) && DirOk(ns, loc, i);
    forall c | 0 <= c < |ns'| ensures DirOk(ns', loc, c) && DeadOk(ns', c) {
      assert DirOk(ns, loc, c) && DeadOk(ns, c);
    }
    forall c, j | 0 <= c < |ns'| && Linked(ns'[c]) && 2 <= j < |ns'[c].ents| ensures EntOk(ns', loc, c, j) {
      assert EntOk(ns, loc, c, j);
    }
  }

  lemma DirUnlinkedOk(ns: seq<Node>, loc: seq<Loc>, d: nat, k: nat)
    requires Ok(ns, loc) && d < |ns| && Linked(ns[d]) && 2 <= k < |ns[d].ents|
    requires var i := ns[d].ents[k].inum; 0 < i < |ns| && ns[i].kind == Dir && NoneAfter(ns[i].ents)
    ensures var i := ns[d].ents[k].inum; i != d && ns[i].nlink == 1 && Ok(DirUnlinked(ns, d, k, i), loc)
  {
    hide Total, CountIn;
    var i := ns[d].ents[k].inum;
    assert EntOk(ns, loc, d, k) && DirOk(ns, loc, i);
    EmptyDirOnce(ns, loc, i);
    ParentLinks(ns, loc, i);
    DirUnlinkedTree(ns, loc, d, k);
    var ns' := DirUnlinked(ns, d, k, i);
    forall x | 0 < x < |ns'| ensures CountOk(ns', x) {
      assert CountOk(ns, x);
      DirUnlinkTotal(ns, d, k, i, x);
    }
  }

  // ---- create ----

  /** ialloc's inode: no links yet. */
  function Allocated(ns: seq<Node>, i: nat, kind: Type): seq<Node>
    requires i < |ns|
  {
    ns[i := Node(kind, 0, [])]
  }

  lemma AllocatedOk(ns: seq<Node>, loc: seq<Loc>, i: nat, kind: Type)
    requires Ok(ns, loc) && 0 < i < |ns| && (kind == File || kind == Device) && ns[i].kind == Unused
    ensures Ok(Allocated(ns, i, kind), loc)
  {
    hide Total, CountIn;
    var ns' := Allocated(ns, i, kind);
    forall x | 0 < x < |ns'| ensures CountOk(ns', x) {
      assert CountOk(ns, x);
      TotalSet(ns, i, ns'[i], x);
    }
    forall c | 0 <= c < |ns'| ensures DirOk(ns', loc, c) && DeadOk(ns', c) {
      assert DirOk(ns, loc, c) && DeadOk(ns, c);
    }
    forall c, k | 0 <= c < |ns'| && Linked(ns'[c]) && 2 <= k < |ns'[c].ents| ensures EntOk(ns', loc, c, k) {
      assert EntOk(ns, loc, c, k);
    }
  }

  /** Directory i is new in d: one link for its entry, one for d from its "..". */
  function DirCreated(ns: seq<Node>, d: nat, name: Name, i: nat): seq<Node>
    requires d < |ns| && i < |ns| && i != d
  {
    ns[i := Node(Dir, 1, [Dirent(i, "."), Dirent(d, "..")])]
      [d := Node(ns[d].kind, Wrap(ns[d].nlink + 1), PutEnt(ns[d].ents, Dirent(i, name)))]
  }

  lemma DirCreatedTotal(ns: seq<Node>, d: nat, name: Name, i: nat, x: nat)
    requires d < |ns| && i < |ns| && i != d && ns[i].kind == Unused && Linked(ns[d]) && x != 0 && name != "." && d != 0
    requires ns[d].nlink < SHRT_MAX
    ensures Total(DirCreated(ns, d, name, i), x) == Total(ns, x) + One(x == i) + One(x == d)
  {
    hide CountIn, Total, PutEnt;
    var n := Node(Dir, 1, [Dirent(i, "."), Dirent(d, "..")]);
    var ms := ns[i := n];
    TotalSet(ns, i, n, x);
    EmptyShare(n, i, d, x);
    TotalSet(ms, d, Node(ns[d].kind, Wrap(ns[d].nlink + 1), PutEnt(ns[d].ents, Dirent(i, name))), x);
    PutEntCount(ns[d].ents, Dirent(i, name), x);
  }

  lemma DirCreatedTree(ns: seq<Node>, loc: seq<Loc>, d: nat, name: Name, i: nat)
    requires Tree(ns, loc) && d < |ns| && 0 < i < |ns| && i != d && ns[i].kind == Unused && Linked(ns[d])
    requires ns[d].nlink < SHRT_MAX && name != "." && name != ".."
    ensures Tree(DirCreated(ns, d, name, i), loc[i := Loc(d, FirstEmpty(ns[d].ents, 0))])
  {
    hide PutEnt, FirstEmpty;
    var ns', loc' := DirCreated(ns, d, name, i), loc[i := Loc(d, FirstEmpty(ns[d].ents, 0))];
    EmptyAfterDots(ns, loc, d);
    PutEntAt(ns[d].ents, Dirent(i, name));
    forall c | 0 <= c < |ns'| ensures DirOk(ns', loc', c) && DeadOk(ns', c) {
      assert DirOk(ns, loc, c) && DeadOk(ns, c);
    }
    forall c, k | 0 <= c < |ns'| && Linked(ns'[c]) && 2 <= k < |ns'[c].ents| ensures EntOk(ns', loc', c, k) {
      if c != d || k != FirstEmpty(ns[d].ents, 0) {
        assert EntOk(ns, loc, c, k);
      }
    }
  }

  lemma DirCreatedOk(ns: seq<Node>, loc: seq<Loc>, d: nat, name: Name, i: nat)
    requires Ok(ns, loc) && d < |ns| && 0 < i < |ns| && i != d && ns[i].kind == Unused && Linked(ns[d])
    requires ns[d].nlink < SHRT_MAX && name != "." && name != ".."
    ensures Ok(DirCreated(ns, d, name, i), loc[i := Loc(d, FirstEmpty(ns[d].ents, 0))])
  {
    hide Total, PutEnt, FirstEmpty;
    DirCreatedTree(ns, loc, d, name, i);
    assert DirOk(ns, loc, d);
    var ns' := DirCreated(ns, d, name, i);
    forall x | 0 < x < |ns'| ensures CountOk(ns', x) {
      assert CountOk(ns, x);
      DirCreatedTotal(ns, d, name, i, x);
    }
  }

  lemma DeadNames(ns: seq<Node>, d: nat)
    requires d < |ns| && DeadOk(ns, d) && ns[d].kind == Dir && !Linked(ns[d])
    ensures Has(ns[d].ents, ".") && Has(ns[d].ents, "..")
    ensures forall name :: name != "." && name != ".." ==> !Has(ns[d].ents, name)
  {
  }

  /** The same for a directory made there: its parent, or what that one's ".." names,
      gets a wrong count. */
  lemma DirBroken(ns: seq<Node>, loc: seq<Loc>, d: nat, name: Name, i: nat)
    requires Ok(ns, loc) && 0 < d < |ns| && 0 < i < |ns| && i != d && ns[i].kind == Unused && ns[d].kind == Dir
    requires !(Linked(ns[d]) && ns[d].nlink < SHRT_MAX) && name != "."
    ensures !Counts(DirCreated(ns, d, name, i))
  {
    hide Total, CountIn, PutEnt, DirOk, EntOk;
    assert CountOk(ns, d) && DeadOk(ns, d);
    if Linked(ns[d]) {
      assert !CountOk(DirCreated(ns, d, name, i), d);
    } else {
      var g := ns[d].ents[1].inum;
      assert CountOk(ns, g);
      DeadTotal(ns, d, name, i, g);
      assert !CountOk(DirCreated(ns, d, name, i), g);
    }
  }

  lemma DeadTotal(ns: seq<Node>, d: nat, name: Name, i: nat, g: nat)
    requires d < |ns| && 0 < i < |ns| && i != d && ns[i].kind == Unused && ns[d].kind == Dir && ns[d].nlink == 0
    requires |ns[d].ents| >= 2 && Names(ns[d].ents[1], g) && g != 0 && g != d && name != "."
    ensures Total(DirCreated(ns, d, name, i), g) >= Total(ns, g) + 1 + One(g == i)
  {
    hide CountIn, Total, PutEnt;
    var n := Node(Dir, 1, [Dirent(i, "."), Dirent(d, "..")]);
    var ms := ns[i := n];
    TotalSet(ns, i, n, g);
    TotalSet(ms, d, Node(ns[d].kind, Wrap(ns[d].nlink + 1), PutEnt(ns[d].ents, Dirent(i, name))), g);
    PutEntCount(ns[d].ents, Dirent(i, name), g);
    CountPos(ns[d].ents, 1, g);
  }

  // ---- iput of an inode without links ----

  function Reclaimed(ns: seq<Node>, i: nat): seq<Node>
    requires i < |ns|
  {
    ns[i := Node(Unused, 0, [])]
  }

  /** Nothing in the tree names an inode without links. */
  lemma UnnamedEntry(ns: seq<Node>, d: nat, k: nat, i: nat)
    requires 0 < i < |ns| && Total(ns, i) == 0 && d < |ns| && Linked(ns[d]) && k < |ns[d].ents|
    ensures !Names(ns[d].ents[k], i)
  {
    hide Total, CountIn, Share;
    if Names(ns[d].ents[k], i) {
      ShareOne(ns[d], k, i);
      TotalAtLeast(ns, d, i);
    }
  }

  lemma ReclaimedOk(ns: seq<Node>, loc: seq<Loc>, i: nat)
    requires Ok(ns, loc) && 0 < i < |ns| && ns[i].kind != Unused && ns[i].nlink == 0
    ensures Ok(Reclaimed(ns, i), loc)
  {
    hide Total, CountIn;
    var ns' := Reclaimed(ns, i);
    assert CountOk(ns, i);
    forall x | 0 < x < |ns'| ensures CountOk(ns', x) {
      assert CountOk(ns, x);
      TotalSet(ns, i, ns'[i], x);
    }
    forall c | 0 <= c < |ns'| ensures DirOk(ns', loc, c) && DeadOk(ns', c) {
      assert DirOk(ns, loc, c) && DeadOk(ns, c);
    }
    forall c, k | 0 <= c < |ns'| && Linked(ns'[c]) && 2 <= k < |ns'[c].ents| ensures EntOk(ns', loc, c, k) {
      assert EntOk(ns, loc, c, k);
      UnnamedEntry(ns, c, k, i);
    }
  }

  // ---- An empty file system ----

  function Fresh(n: nat): seq<Node>
    requires n > ROOTINO
  {
    seq(n, i => Node(Unused, 0, []))[ROOTINO := Node(Dir, 1, [Dirent(ROOTINO, "."), Dirent(ROOTINO, "..")])]
  }

  lemma FreshOk(n: nat, loc: seq<Loc>)
    requires n > ROOTINO && |loc| == n
    ensures Ok(Fresh(n), loc)
  {
    hide Total, CountIn;
    var ns := Fresh(n);
    forall x | 0 < x < |ns| ensures CountOk(ns, x) {
      EmptyShare(ns[ROOTINO], ROOTINO, ROOTINO, x);
      TotalOne(ns, ROOTINO, x);
    }
  }
}
