/** create, link and unlink (kernel/sysfile.c:120-295) with dirlookup and dirlink
    (kernel/fs.c:529-583), one call at a time. What path lookup finds is a parameter.
    Panics for exhausted resources are preconditions. */
module Links {
  import opened LinkSpec

  datatype Found = Missing | At(inum: nat)

  class FsTree {
    var ns: seq<Node>
    ghost var loc: seq<Loc>

    ghost predicate Valid()
      reads this
    {
      Ok(ns, loc)
    }

    constructor (ninodes: nat)
      requires ninodes > ROOTINO
      ensures Valid() && ns == Fresh(ninodes)
    {
      ns := Fresh(ninodes);
      loc := seq(ninodes, i => Loc(0, 0));
      FreshOk(ninodes, seq(ninodes, i => Loc(0, 0)));
    }

    /** dirlookup: the entry with this name, or the end. */
    method DirLookup(d: nat, name: Name) returns (k: nat)
      requires d < |ns|
      ensures k == FindName(ns[d].ents, name, 0)
    {
      k := 0;
      while k < |ns[d].ents|
        invariant 0 <= k <= |ns[d].ents| && FindName(ns[d].ents, name, 0) == FindName(ns[d].ents, name, k)
      {
        if ns[d].ents[k].inum != 0 && ns[d].ents[k].name == name {
          return;
        }
        k := k + 1;
      }
    }

    /** dirlink: a new entry in the first empty slot, unless the name is there. */
    method DirLink(d: nat, name: Name, i: nat) returns (ok: bool)
      requires d < |ns| && (!Has(ns[d].ents, name) ==> Room(ns[d].ents))
      modifies this`ns
      ensures ok == !Has(old(ns)[d].ents, name)
      ensures ns == if ok then old(ns)[d := WithEnt(old(ns)[d], Dirent(i, name))] else old(ns)
    {
      var at := DirLookup(d, name);
      if at < |ns[d].ents| {
        return false;
      }
      var k := 0;
      while k < |ns[d].ents|
        invariant 0 <= k <= |ns[d].ents| && FirstEmpty(ns[d].ents, 0) == FirstEmpty(ns[d].ents, k)
      {
        if ns[d].ents[k].inum == 0 {
          break;
        }
        k := k + 1;
      }
      var es := if k < |ns[d].ents| then ns[d].ents[k := Dirent(i, name)] else ns[d].ents + [Dirent(i, name)];
      ns := ns[d := Node(ns[d].kind, ns[d].nlink, es)];
      return true;
    }

    /** isdirempty. */
    method IsDirEmpty(d: nat) returns (empty: bool)
      requires d < |ns| && |ns[d].ents| >= 2
      ensures empty == NoneAfter(ns[d].ents)
    {
      var k := 2;
      while k < |ns[d].ents|
        invariant 2 <= k <= |ns[d].ents| && forall j :: 2 <= j < k ==> ns[d].ents[j].inum == 0
      {
        if ns[d].ents[k].inum != 0 {
          return false;
        }
        k := k + 1;
      }
      return true;
    }

    method AddLinks(i: nat, n: int)
      requires i < |ns|
      modifies this`ns
      ensures ns == old(ns)[i := Node(old(ns)[i].kind, Wrap(old(ns)[i].nlink + n), old(ns)[i].ents)]
    {
      ns := ns[i := Node(ns[i].kind, Wrap(ns[i].nlink + n), ns[i].ents)];
    }

    /** sys_link: `old` and `parent` are what namei and nameiparent find. The counts are
        right afterwards exactly when the call failed, or the directory is still in the
        tree and the file's count was below the largest short. */
    method Link(target: Found, parent: Found, name: Name) returns (r: int)
      requires Valid() && IsInode(ns, target) && IsDir(ns, parent)
      requires parent.At? && !Has(ns[parent.inum].ents, name) ==> Room(ns[parent.inum].ents)
      modifies this
      ensures (r == 0 || r == -1) && (r == -1 ==> ns == old(ns))
      ensures r == 0 <==>
              target.At? && old(ns)[target.inum].kind != Dir && parent.At?
              && !Has(old(ns)[parent.inum].ents, name)
      ensures if r == -1 || (Linked(old(ns)[parent.inum]) && old(ns)[target.inum].nlink < SHRT_MAX) then Valid()
              else !Counts(ns)
      ensures r == 0 ==> ns == LinkedTo(old(ns), parent.inum, name, target.inum)
    {
      hide Tree, Counts, PutEnt, FindName;
      if target == Missing {
        return -1;
      }
      var ip := target.inum;
      if ns[ip].kind == Dir {
        return -1;
      }
      AddLinks(ip, 1);
      if parent == Missing {
        AddLinks(ip, -1);
        assert ns == old(ns);
        return -1;
      }
      var dp := parent.inum;
      var ok := DirLink(dp, name, ip);
      if !ok {
        AddLinks(ip, -1);
        assert ns == old(ns);
        return -1;
      }
      if Linked(old(ns)[dp]) && old(ns)[ip].nlink < SHRT_MAX {
        NewName(old(ns), loc, dp, name);
        LinkOk(old(ns), loc, dp, name, ip);
      } else {
        LinkBroken(old(ns), dp, name, ip);
      }
      return 0;
    }

    /** sys_unlink. */
    method Unlink(parent: Found, name: Name) returns (r: int)
      requires Valid() && IsDir(ns, parent)
      modifies this
      ensures Valid() && (r == 0 || r == -1) && (r == -1 ==> ns == old(ns))
      ensures r == 0 <==> CanUnlink(old(ns), parent, name)
      ensures r == 0 ==>
                var d, k := parent.inum, FindName(old(ns)[parent.inum].ents, name, 0);
                var i := old(ns)[d].ents[k].inum;
                && i < |old(ns)| && i != d
                && ns == if old(ns)[i].kind == Dir then DirUnlinked(old(ns), d, k, i)
                   else FileUnlinked(old(ns), d, k, i)
    {
      hide Tree, Counts, FindName, NoneAfter;
      if parent == Missing {
        return -1;
      }
      var dp := parent.inum;
      if name == "." || name == ".." {
        return -1;
      }
      var k := DirLookup(dp, name);
      if k >= |ns[dp].ents| {
        return -1;
      }
      StillLinked(ns, loc, dp, name);
      EntryFound(ns, loc, dp, name, k);
      var ip := ns[dp].ents[k].inum;
      assert ns[ip].nlink >= 1;
      if ns[ip].kind == Dir {
        var empty := IsDirEmpty(ip);
        if !empty {
          return -1;
        }
        DirUnlinkedOk(ns, loc, dp, k);
      } else {
        FileUnlinkedOk(ns, loc, dp, k);
      }
      ns := ns[dp := Node(ns[dp].kind, ns[dp].nlink, ns[dp].ents[k := NOENT])];
      if ns[ip].kind == Dir {
        AddLinks(dp, -1);
      }
      AddLinks(ip, -1);
      assert ns == if old(ns)[ip].kind == Dir then DirUnlinked(old(ns), dp, k, ip)
        else FileUnlinked(old(ns), dp, k, ip);
      return 0;
    }

    /** ialloc: the first unused inode. */
    method Ialloc(kind: Type) returns (i: nat)
      requires exists j :: 0 < j < |ns| && ns[j].kind == Unused
      modifies this`ns
      ensures 0 < i < |old(ns)| && old(ns)[i].kind == Unused && ns == Allocated(old(ns), i, kind)
      ensures forall j :: 0 < j < i ==> old(ns)[j].kind != Unused
    {
      i := 1;
      while ns[i].kind != Unused
        invariant 0 < i < |ns| && ns == old(ns) && forall j :: 0 < j < i ==> ns[j].kind != Unused
        invariant exists j :: i <= j < |ns| && ns[j].kind == Unused
        decreases |ns| - i
      {
        i := i + 1;
      }
      ns := ns[i := Node(kind, 0, [])];
    }

    /** The part of create that makes a directory: its dots, and its entry in dp. */
    method FillDir(dp: nat, name: Name, ip: nat, ghost ns0: seq<Node>)
      requires 0 < dp < |ns0| && 0 < ip < |ns0| && ip != dp && ns == ns0[ip := Node(Dir, 1, [])]
      requires !Has(ns0[dp].ents, name) && Room(ns0[dp].ents)
      modifies this`ns
      ensures ns == DirCreated(ns0, dp, name, ip)
    {
      hide FindName, PutEnt, FirstEmpty;
      AddLinks(dp, 1);
      TwoDots(ip, dp);
      var dot := DirLink(ip, ".", ip);
      var dots := DirLink(ip, "..", dp);
      assert dot && dots;
      var _ := DirLink(dp, name, ip);
    }

    /** create: a new inode of this kind under `name`, or the file that is there. The
        counts are right afterwards exactly when nothing was made, or it was made in a
        directory that is still in the tree and, if a directory, has a link left. */
    method Create(parent: Found, name: Name, kind: Type) returns (r: Found)
      requires Valid() && IsDir(ns, parent) && kind != Unused
      requires parent.At? && !Has(ns[parent.inum].ents, name) ==>
                 Room(ns[parent.inum].ents) && exists j :: 0 < j < |ns| && ns[j].kind == Unused
      modifies this
      ensures if parent == Missing || Has(old(ns)[parent.inum].ents, name) || CanHold(old(ns)[parent.inum], kind)
              then Valid() else !Counts(ns)
      ensures parent == Missing ==> r == Missing && ns == old(ns)
      ensures parent.At? && Has(old(ns)[parent.inum].ents, name) ==>
                && ns == old(ns)
                && var i := ns[parent.inum].ents[FindName(ns[parent.inum].ents, name, 0)].inum;
                   i < |ns| && r == if kind == File && (ns[i].kind == File || ns[i].kind == Device) then At(i)
                     else Missing
      ensures parent.At? && !Has(old(ns)[parent.inum].ents, name) ==>
                && r.At? && 0 < r.inum < |old(ns)| && old(ns)[r.inum].kind == Unused && r.inum != parent.inum
                && ns == if kind == Dir then DirCreated(old(ns), parent.inum, name, r.inum)
                         else LinkedTo(Allocated(old(ns), r.inum, kind), parent.inum, name, r.inum)
    {
      hide Tree, Counts, FindName, PutEnt, FirstEmpty;
      if parent == Missing {
        return Missing;
      }
      var dp := parent.inum;
      var k := DirLookup(dp, name);
      if k < |ns[dp].ents| {
        EntryNamed(ns, loc, dp, name, k);
        var i := ns[dp].ents[k].inum;
        if kind == File && (ns[i].kind == File || ns[i].kind == Device) {
          return At(i);
        }
        return Missing;
      }
      NewName(ns, loc, dp, name);
      ghost var fits := CanHold(ns[dp], kind);
      var ip := Ialloc(kind);
      ghost var ns0 := old(ns);
      ns := ns[ip := Node(kind, 1, [])];
      if kind == Dir {
        FillDir(dp, name, ip, ns0);
        if fits {
          DirCreatedOk(ns0, loc, dp, name, ip);
          loc := loc[ip := Loc(dp, FirstEmpty(ns0[dp].ents, 0))];
        } else {
          DirBroken(ns0, loc, dp, name, ip);
        }
      } else {
        var _ := DirLink(dp, name, ip);
        assert ns == LinkedTo(Allocated(ns0, ip, kind), dp, name, ip);
        AllocatedOk(ns0, loc, ip, kind);
        if fits {
          LinkOk(Allocated(ns0, ip, kind), loc, dp, name, ip);
        } else {
          LinkBroken(Allocated(ns0, ip, kind), dp, name, ip);
        }
      }
      return At(ip);
    }

    /** iput's last part: an inode that has no links and no users is freed. */
    method Reclaim(i: nat)
      requires Valid() && 0 < i < |ns| && ns[i].kind != Unused && ns[i].nlink == 0
      modifies this
      ensures Valid() && ns == Reclaimed(old(ns), i)
    {
      hide Tree, Counts;
      ReclaimedOk(ns, loc, i);
      ns := ns[i := Node(Unused, 0, [])];
    }
  }

  // ---- Where the counts go wrong ----

  /** The root of a fresh file system has room for any name but the dots. */
  lemma FreshRoot(n: nat, name: Name, i: nat)
    requires n > ROOTINO && name != "." && name != ".."
    ensures var es := Fresh(n)[ROOTINO].ents;
            && es == [Dirent(ROOTINO, "."), Dirent(ROOTINO, "..")] && !Has(es, name) && Room(es)
            && PutEnt(es, Dirent(i, name)) == es + [Dirent(i, name)]
    ensures i > 0 ==> FindName(Fresh(n)[ROOTINO].ents + [Dirent(i, name)], name, 0) == 2
  {
    var es := Fresh(n)[ROOTINO].ents + [Dirent(i, name)];
    assert es[2] == Dirent(i, name) && es[0].name != name && es[1].name != name;
    assert i > 0 ==> FindName(es, name, 0) <= 2;
  }

  /** mkdir d, rmdir d while a process is in it, and create f there: the file has a link
      that no directory of the tree holds. */
  method RemovedParent(ninodes: nat) returns (t: FsTree)
    requires ninodes > ROOTINO + 2
    ensures !Counts(t.ns)
  {
    hide FindName, FirstEmpty, PutEnt, Counts, Tree;
    t := new FsTree(ninodes);
    FreshRoot(ninodes, "d", 1);
    assert t.ns[ROOTINO + 1].kind == Unused && t.ns[ROOTINO + 2].kind == Unused;
    var d := t.Create(At(ROOTINO), "d", Dir);
    FreshRoot(ninodes, "d", d.inum);
    var r := t.Unlink(At(ROOTINO), "d");
    var free := if d.inum == ROOTINO + 1 then ROOTINO + 2 else ROOTINO + 1;
    assert t.ns[free].kind == Unused && t.ns[d.inum].kind == Dir && t.ns[d.inum].nlink == 0;
    DotsOnly(d.inum, "f");
    var f := t.Create(d, "f", File);
  }

  /** At most i + 2 entries, and none with the i-th numbered name or a later one. */
  ghost predicate Upto(es: seq<Dirent>, i: nat) {
    |es| <= i + 2 && forall k, j :: 0 <= k < |es| && i <= j < MAXNUM ==> es[k].name != Numbered(j)
  }

  const MAXNUM := 0x10000

  function Letter(d: nat): char
    requires d < 16
  {
    "abcdefghijklmnop"[d]
  }

  /** i in four digits of base 16. */
  function Numbered(i: nat): Name {
    [Letter(i / 4096 % 16), Letter(i / 256 % 16), Letter(i / 16 % 16), Letter(i % 16)]
  }

  lemma LettersDiffer(a: nat, b: nat)
    requires a < 16 && b < 16 && Letter(a) == Letter(b)
    ensures a == b
  {
  }

  lemma Digits(i: nat)
    requires i < MAXNUM
    ensures i == i / 4096 % 16 * 4096 + i / 256 % 16 * 256 + i / 16 % 16 * 16 + i % 16
  {
    assert i / 4096 == i / 256 / 16 && i / 256 == i / 16 / 16;
  }

  lemma NamesDiffer(i: nat, j: nat)
    requires i < MAXNUM && j < MAXNUM && Numbered(i) == Numbered(j)
    ensures i == j
  {
    hide Letter;
    assert Numbered(i)[0] == Numbered(j)[0] && Numbered(i)[1] == Numbered(j)[1];
    assert Numbered(i)[2] == Numbered(j)[2] && Numbered(i)[3] == Numbered(j)[3];
    LettersDiffer(i / 4096 % 16, j / 4096 % 16);
    LettersDiffer(i / 256 % 16, j / 256 % 16);
    LettersDiffer(i / 16 % 16, j / 16 % 16);
    LettersDiffer(i % 16, j % 16);
    Digits(i);
    Digits(j);
  }

  lemma UptoMore(es: seq<Dirent>, i: nat, inum: nat)
    requires Upto(es, i) && i < MAXNUM
    ensures !Has(es, Numbered(i)) && Upto(PutEnt(es, Dirent(inum, Numbered(i))), i + 1) && Upto(es, i + 1)
    ensures i < MAXENTS - 2 ==> Room(es)
  {
    hide FindName, FirstEmpty, Numbered;
    PutEntAt(es, Dirent(inum, Numbered(i)));
    forall j | i < j < MAXNUM ensures Numbered(i) != Numbered(j) {
      if Numbered(i) == Numbered(j) {
        NamesDiffer(i, j);
      }
    }
  }

  /** n more links to `file` in directory d, under numbered names. */
  method LinkMany(t: FsTree, file: nat, d: nat, i: nat, n: nat)
    requires t.Valid() && 0 < file < |t.ns| && 0 < d < |t.ns| && t.ns[file].kind == File && Linked(t.ns[d])
    requires 2 <= i && Upto(t.ns[d].ents, i) && i + n < MAXENTS - 2 && t.ns[file].nlink + n <= SHRT_MAX
    modifies t
    ensures t.Valid() && |t.ns| == |old(t.ns)| && t.ns[file].kind == File && Linked(t.ns[d])
    ensures Upto(t.ns[d].ents, i + n) && t.ns[file].nlink == old(t.ns)[file].nlink + n
    ensures forall x :: 0 <= x < |t.ns| && x != file && x != d ==> t.ns[x] == old(t.ns)[x]
  {
    hide FindName, FirstEmpty, PutEnt, Counts, Tree, Upto, Room;
    var k := 0;
    while k < n
      invariant 0 <= k <= n && t.Valid() && |t.ns| == |old(t.ns)| && t.ns[file].kind == File && Linked(t.ns[d])
      invariant Upto(t.ns[d].ents, i + k) && t.ns[file].nlink == old(t.ns)[file].nlink + k
      invariant forall x :: 0 <= x < |t.ns| && x != file && x != d ==> t.ns[x] == old(t.ns)[x]
    {
      UptoMore(t.ns[d].ents, i + k, file);
      var r := t.Link(At(file), At(d), Numbered(i + k));
      k := k + 1;
    }
  }

  /** A fresh file system with a file and a directory in its root. */
  method FileAndDir(ninodes: nat) returns (t: FsTree, file: nat, dir: nat)
    requires ninodes > ROOTINO + 2
    ensures fresh(t) && t.Valid() && |t.ns| == ninodes && 0 < file < ninodes && 0 < dir < ninodes && dir != ROOTINO
    ensures t.ns[file].kind == File && t.ns[file].nlink == 1 && Linked(t.ns[dir]) && Linked(t.ns[ROOTINO])
    ensures Upto(t.ns[ROOTINO].ents, 2) && Upto(t.ns[dir].ents, 2)
  {
    hide FindName, Counts, Tree, Upto, Room, PutEnt;
    t := new FsTree(ninodes);
    FreshRoot(ninodes, "f", 1);
    assert t.ns[ROOTINO + 1].kind == Unused && t.ns[ROOTINO + 2].kind == Unused;
    var f := t.Create(At(ROOTINO), "f", File);
    file := f.inum;
    FreshRoot(ninodes, "f", file);
    var free := if file == ROOTINO + 1 then ROOTINO + 2 else ROOTINO + 1;
    assert t.ns[free].kind == Unused;
    AfterF(file);
    assert t.ns[ROOTINO].ents == [Dirent(ROOTINO, "."), Dirent(ROOTINO, ".."), Dirent(file, "f")];
    var d := t.Create(At(ROOTINO), "d", Dir);
    dir := d.inum;
    AfterFD(file, dir);
  }

  /** Links to one file, spread over two directories, until nlink is the largest short; one
      more makes it negative. */
  method OneLinkTooMany(ninodes: nat) returns (t: FsTree)
    requires ninodes > ROOTINO + 2
    ensures !Counts(t.ns)
  {
    hide FindName, Counts, Tree, Upto, Room, PutEnt, FirstEmpty;
    var file, dir;
    t, file, dir := FileAndDir(ninodes);
    var half := 17000;
    LinkMany(t, file, ROOTINO, 2, half);
    LinkMany(t, file, dir, 2, SHRT_MAX - 1 - half);
    UptoMore(t.ns[dir].ents, SHRT_MAX + 1 - half, file);
    var r := t.Link(At(file), At(dir), Numbered(SHRT_MAX + 1 - half));
  }

  lemma AfterF(f: nat)
    requires f > 0
    ensures var es := [Dirent(ROOTINO, "."), Dirent(ROOTINO, ".."), Dirent(f, "f")]; !Has(es, "d") && Room(es)
  {
    var es := [Dirent(ROOTINO, "."), Dirent(ROOTINO, ".."), Dirent(f, "f")];
    assert forall k :: 0 <= k < |es| ==> es[k].name != "d";
  }

  lemma AfterFD(f: nat, d: nat)
    requires f > 0
    ensures var es := [Dirent(ROOTINO, "."), Dirent(ROOTINO, ".."), Dirent(f, "f")];
            Upto(PutEnt(es, Dirent(d, "d")), 2) && Upto([Dirent(d, "."), Dirent(ROOTINO, "..")], 2)
  {
    hide FirstEmpty;
    PutEntAt([Dirent(ROOTINO, "."), Dirent(ROOTINO, ".."), Dirent(f, "f")], Dirent(d, "d"));
  }

  lemma DotsOnly(i: nat, name: Name)
    requires name != "." && name != ".."
    ensures var es := [Dirent(i, "."), Dirent(ROOTINO, "..")]; !Has(es, name) && Room(es)
  {
  }

  /** There is an empty entry or space for one more. */
  predicate Room(es: seq<Dirent>) {
    FirstEmpty(es, 0) < |es| || |es| < MAXENTS
  }

  predicate IsInode(ns: seq<Node>, f: Found) {
    f.At? ==> 0 < f.inum < |ns| && ns[f.inum].kind != Unused
  }

  predicate IsDir(ns: seq<Node>, f: Found) {
    f.At? ==> 0 < f.inum < |ns| && ns[f.inum].kind == Dir
  }

  /** Directory n is in the tree, and has a link left if the new inode takes one. */
  predicate CanHold(n: Node, kind: Type) {
    Linked(n) && (kind == Dir ==> n.nlink < SHRT_MAX)
  }

  /** There is such an entry, other than "." and "..", and it is no directory in use. */
  predicate CanUnlink(ns: seq<Node>, parent: Found, name: Name) {
    && parent.At? && parent.inum < |ns| && name != "." && name != ".." && Has(ns[parent.inum].ents, name)
    && var i := ns[parent.inum].ents[FindName(ns[parent.inum].ents, name, 0)].inum;
       i < |ns| && (ns[i].kind == Dir ==> NoneAfter(ns[i].ents))
  }

  lemma NewName(ns: seq<Node>, loc: seq<Loc>, d: nat, name: Name)
    requires Ok(ns, loc) && d < |ns| && ns[d].kind == Dir && !Has(ns[d].ents, name)
    ensures name != "." && name != ".." && |loc| == |ns|
  {
    hide Counts, FindName;
    if Linked(ns[d]) {
      EmptyAfterDots(ns, loc, d);
    } else {
      DeadNames(ns, d);
    }
  }

  /** A directory that has more than its dots is in the tree. */
  lemma StillLinked(ns: seq<Node>, loc: seq<Loc>, d: nat, name: Name)
    requires Ok(ns, loc) && d < |ns| && ns[d].kind == Dir && Has(ns[d].ents, name) && name != "." && name != ".."
    ensures Linked(ns[d])
  {
    hide Counts, FindName;
    if !Linked(ns[d]) {
      DeadNames(ns, d);
    }
  }

  lemma EntryNamed(ns: seq<Node>, loc: seq<Loc>, d: nat, name: Name, k: nat)
    requires Ok(ns, loc) && d < |ns| && ns[d].kind == Dir && k == FindName(ns[d].ents, name, 0) && k < |ns[d].ents|
    ensures 0 < ns[d].ents[k].inum < |ns|
  {
    hide Counts;
    assert DirOk(ns, loc, d) && DeadOk(ns, d);
    if k >= 2 {
      assert EntOk(ns, loc, d, k);
    }
  }

  /** An entry other than the dots names an inode that has a link. */
  lemma EntryFound(ns: seq<Node>, loc: seq<Loc>, d: nat, name: Name, k: nat)
    requires Ok(ns, loc) && d < |ns| && Linked(ns[d]) && k == FindName(ns[d].ents, name, 0) && k < |ns[d].ents|
    requires name != "." && name != ".."
    ensures var i := ns[d].ents[k].inum;
            && 2 <= k && 0 < i < |ns| && i != d && ns[i].kind != Unused && ns[i].nlink >= 1
            && (ns[i].kind == Dir ==> |ns[i].ents| >= 2)
  {
    hide Total, CountIn, Share;
    assert DirOk(ns, loc, d);
    assert EntOk(ns, loc, d, k);
    var i := ns[d].ents[k].inum;
    assert CountOk(ns, i) && DirOk(ns, loc, i);
    ShareOne(ns[d], k, i);
    TotalAtLeast(ns, d, i);
  }

  /** dirlink of "." and ".." into an empty directory. */
  lemma TwoDots(i: nat, d: nat)
    requires i > 0
    ensures !Has([], ".") && PutEnt([], Dirent(i, ".")) == [Dirent(i, ".")] && !Has([Dirent(i, ".")], "..")
    ensures Room([]) && Room([Dirent(i, ".")])
    ensures PutEnt([Dirent(i, ".")], Dirent(d, "..")) == [Dirent(i, "."), Dirent(d, "..")]
  {
  }
}
