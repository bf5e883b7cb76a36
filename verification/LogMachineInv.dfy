/** Invariants of LogMachine and the proof that every step keeps them. */
module LogMachineInv {
  import opened Common
  import opened Blocks
  import opened LogSpec
  import opened LogCrash
  import opened LogMachine

  // ---- Invariants ----

  /** One buffer: refcnt counts its references plus its pin, only active operations
      hold modified buffers, and loaded content is what readers should see. */
  ghost predicate GoodBuf(lay: Layout, c: Core, b: nat, buf: Buf) {
    && b < |c.disk| && |View(c)| == |c.disk|
    && buf.refcnt == |buf.refs| + (if Pinned(c, b) then 1 else 0)
    && (buf.owner.Held? ==> buf.owner.tid in buf.refs)
    && (buf.dirty ==> buf.valid && buf.owner.Held? && Active(c, buf.owner.tid) && !InLog(lay, b))
    && (Pinned(c, b) ==> buf.valid)
    && (buf.valid && (InLog(lay, b) || Booting(c)) ==> buf.data == c.disk[b])
    && (buf.valid && !InLog(lay, b) && !Booting(c) && !buf.dirty ==> buf.data == View(c)[b])
  }

  ghost predicate GoodBufs(lay: Layout, s: State) {
    && (forall b :: b in s.bufs ==> GoodBuf(lay, s.c, b, s.bufs[b]))
    && (forall i :: PinFrom(s.c) <= i < |s.c.lh| ==> s.c.lh[i] in s.bufs)
  }

  /** The disk in each phase. */
  ghost predicate GoodDisk(lay: Layout, c: Core) {
    && Recoverable(lay, c.disk) && |c.base| == |c.disk|
    && Loggable(lay, c.disk, c.lh)
    && SameHome(lay, Recover(lay, c.disk), Committed(c))
    && GoodPhase(lay, c)
    && (!Booting(c) ==> forall b :: Home(lay, c.disk, b) && !Pinned(c, b) ==> c.disk[b] == View(c)[b])
  }

  ghost predicate GoodPhase(lay: Layout, c: Core)
    requires Recoverable(lay, c.disk) && |c.base| == |c.disk| && Loggable(lay, c.disk, c.lh)
  {
    match c.phase
    case Idle => Header(lay, c.disk) == [] && AllLogged(c)
    case Logging(k) => Header(lay, c.disk) == [] && AllLogged(c) && 0 < |c.lh| && k <= |c.lh| && SlotsHold(lay, c, k)
    case Installing(k) => Header(lay, c.disk) == c.lh && k <= |c.lh| && c.cur == [] && SlotsHold(lay, c, |c.lh|)
    case Finishing => Header(lay, c.disk) == [] && c.lh == [] && c.cur == []
    case Boot => c.lh == [] && c.cur == []
    case Recovering(k) =>
      && Header(lay, c.disk) == c.lh && k <= |c.lh| && c.cur == []
      && forall i :: 0 <= i < k ==> c.lh[i] < |c.disk| && c.disk[c.lh[i]] == c.disk[Slot(lay, i)]
  }

  /** Every listed block was given to log_write by the group being built. */
  ghost predicate AllLogged(c: Core) {
    forall i :: 0 <= i < |c.lh| ==> Logs(c.cur, c.lh[i])
  }

  ghost predicate Logs(es: seq<Event>, b: nat) {
    exists j :: 0 <= j < |es| && es[j].bno == b
  }

  ghost predicate SlotsHold(lay: Layout, c: Core, k: nat)
    requires Recoverable(lay, c.disk) && Loggable(lay, c.disk, c.lh) && k <= |c.lh|
  {
    && |View(c)| == |c.disk|
    && forall i :: 0 <= i < k ==> c.lh[i] < |c.disk| && c.disk[Slot(lay, i)] == View(c)[c.lh[i]]
  }

  /** Operations: the counter, the commit flag, and where their events are. */
  ghost predicate GoodOps(lay: Layout, c: Core) {
    && c.outstanding == |c.ops|
    && (c.committing <==> c.phase.Logging? || c.phase.Installing? || c.phase.Finishing?)
    && (c.committing || Booting(c) ==> c.ops == [])
    && (forall i, j :: 0 <= i < j < |c.ops| ==> c.ops[i].tid != c.ops[j].tid && c.ops[i].id != c.ops[j].id)
    && (forall i :: 0 <= i < |c.ops| ==> c.ops[i].id < c.nextOp && c.ops[i].id !in c.ended)
    && (forall i :: 0 <= i < |c.cur| ==> c.cur[i].bno in c.lh)
    && (forall i :: 0 <= i < |c.trace| ==> c.trace[i].op < c.nextOp)
    && (forall id :: id in c.ended ==> id < c.nextOp)
  }

  /** The events of one operation, in order. */
  function Of(es: seq<Event>, id: nat): seq<Event> {
    if es == [] then []
    else Of(es[..|es| - 1], id) + if es[|es| - 1].op == id then [es[|es| - 1]] else []
  }

  /** Operation id is still open or waiting for its group to commit: all it ever logged
      is in the current group. */
  ghost predicate InProgress(c: Core, id: nat) {
    Of(c.trace, id) == Of(c.cur, id) && forall g :: 0 <= g < |c.groups| ==> Of(c.groups[g], id) == []
  }

  /** Each group is made of whole finished operations: if any event of an operation is
      in group g then the operation has ended, everything it ever logged is in g, and
      nothing of it is elsewhere. */
  ghost predicate WholeGroup(c: Core, g: nat)
    requires g < |c.groups|
  {
    forall id: nat :: Of(c.groups[g], id) != [] ==>
      && id in c.ended && Of(c.groups[g], id) == Of(c.trace, id) && Of(c.cur, id) == []
      && forall h :: 0 <= h < |c.groups| && h != g ==> Of(c.groups[h], id) == []
  }

  ghost predicate GoodGroups(c: Core) {
    && (forall g :: 0 <= g < |c.groups| ==> WholeGroup(c, g))
    && (forall i :: 0 <= i < |c.ops| ==> InProgress(c, c.ops[i].id))
    && (forall id: nat :: Of(c.cur, id) != [] ==> InProgress(c, id) && (id in c.ended || OpenId(c, id)))
    && (forall id: nat :: Of(c.trace, id) != [] ==> id < c.nextOp)
    && (forall g, id: nat :: 0 <= g < |c.groups| && Of(c.groups[g], id) != [] ==> id < c.nextOp)
  }

  ghost predicate OpenId(c: Core, id: nat) {
    exists i :: 0 <= i < |c.ops| && c.ops[i].id == id
  }

  ghost predicate Inv(lay: Layout, s: State) {
    GoodDisk(lay, s.c) && GoodOps(lay, s.c) && GoodBufs(lay, s) && GoodGroups(s.c)
  }

  // ---- Helpers ----

  lemma {:induction false} ApplyUntouched(d: DiskImage, es: seq<Event>, b: nat)
    requires b < |d| && forall i :: 0 <= i < |es| ==> es[i].bno != b
    ensures ApplyEvents(d, es)[b] == d[b]
  {
    if es != [] {
      ApplyUntouched(d, es[..|es| - 1], b);
    }
  }

  lemma ViewAfter(c: Core, c': Core, e: Event)
    requires e.bno < |c.base| && c'.base == c.base && c'.groups == c.groups && c'.cur == c.cur + [e]
    ensures View(c') == View(c)[e.bno := e.data]
  {
    assert (c.cur + [e])[..|c.cur|] == c.cur;
  }

  /** A single buffer replaced, the core unchanged. */
  lemma BufStep(lay: Layout, s: State, b: nat, buf: Buf)
    requires Inv(lay, s) && GoodBuf(lay, s.c, b, buf)
    ensures Inv(lay, s.(bufs := s.bufs[b := buf]))
  {
    hide GoodBuf, GoodDisk, GoodOps, GoodGroups;
  }

  lemma GetStep(lay: Layout, s: State, t: Tid, b: nat, junk: Block)
    requires Inv(lay, s) && CanGet(lay, s, t, b)
    ensures Inv(lay, DoGet(s, t, b, junk))
  {
    hide GoodGroups, GoodOps, GoodPhase, View;
    if b in s.bufs {
      assert GoodBuf(lay, s.c, b, s.bufs[b]);
      BufStep(lay, s, b, s.bufs[b].(refcnt := s.bufs[b].refcnt + 1, refs := s.bufs[b].refs + {t}));
    } else {
      BufStep(lay, s, b, Buf(junk, false, 1, Nobody, {t}, false));
    }
  }

  lemma LockStep(lay: Layout, s: State, t: Tid, b: nat)
    requires Inv(lay, s) && CanLock(s, t, b)
    ensures Inv(lay, DoLock(s, t, b))
  {
    hide GoodGroups, GoodOps, GoodPhase, View;
    assert GoodBuf(lay, s.c, b, s.bufs[b]);
    BufStep(lay, s, b, s.bufs[b].(owner := Held(t)));
  }

  lemma FillStep(lay: Layout, s: State, t: Tid, b: nat)
    requires Inv(lay, s) && CanFill(s, t, b)
    ensures Inv(lay, DoFill(s, t, b))
  {
    hide GoodGroups, GoodOps, GoodPhase, View;
    assert GoodBuf(lay, s.c, b, s.bufs[b]);
    assert !Booting(s.c) && !InLog(lay, b) ==> Home(lay, s.c.disk, b);
    BufStep(lay, s, b, s.bufs[b].(data := s.c.disk[b], valid := true));
  }

  lemma ModifyStep(lay: Layout, s: State, i: nat, b: nat, data: Block)
    requires Inv(lay, s) && CanModify(lay, s, i, b)
    ensures Inv(lay, DoModify(lay, s, i, b, data))
  {
    hide GoodGroups, GoodPhase, View;
    assert GoodBuf(lay, s.c, b, s.bufs[b]);
    assert Active(s.c, s.c.ops[i].tid);
    BufStep(lay, s, b, s.bufs[b].(data := data, dirty := true));
  }

  lemma ReleaseStep(lay: Layout, s: State, t: Tid, b: nat)
    requires Inv(lay, s) && CanRelease(s, t, b)
    ensures Inv(lay, DoRelease(s, t, b))
  {
    hide GoodGroups, GoodOps, GoodPhase, View;
    assert GoodBuf(lay, s.c, b, s.bufs[b]);
    BufStep(lay, s, b, s.bufs[b].(owner := Nobody, refs := s.bufs[b].refs - {t}, refcnt := s.bufs[b].refcnt - 1));
  }

  /** Recycling never hits a pinned buffer: its refcnt is not zero. */
  lemma EvictStep(lay: Layout, s: State, b: nat)
    requires Inv(lay, s) && CanEvict(s, b)
    ensures Inv(lay, DoEvict(s, b))
  {
    hide GoodGroups, GoodOps, GoodPhase, GoodDisk, View;
    assert GoodBuf(lay, s.c, b, s.bufs[b]);
    assert !Pinned(s.c, b);
  }

  // ---- Begin and end ----

  lemma BeginStep(lay: Layout, s: State, t: Tid)
    requires Inv(lay, s) && CanBegin(s, t)
    ensures Inv(lay, DoBegin(s, t))
  {
    hide GoodDisk, GoodGroups, GoodBufs, GoodOps;
    var s' := DoBegin(s, t);
    var c, c' := s.c, s'.c;
    SameDisk(lay, c, c');
    forall u | Active(c, u) ensures Active(c', u) {
      var i :| 0 <= i < |c.ops| && c.ops[i].tid == u;
      assert c'.ops[i].tid == u;
    }
    MoreActive(lay, s, s');
    BeginOps(lay, s, t);
    BeginGroups(c, t);
  }

  lemma BeginOps(lay: Layout, s: State, t: Tid)
    requires GoodOps(lay, s.c) && CanBegin(s, t)
    ensures GoodOps(lay, DoBegin(s, t).c)
  {
    assert forall i :: 0 <= i < |s.c.ops| ==> s.c.ops[i].tid != t;
  }

  /** The disk invariant does not mention operations. */
  lemma SameDisk(lay: Layout, c: Core, c': Core)
    requires GoodDisk(lay, c)
    requires c'.disk == c.disk && c'.lh == c.lh && c'.phase == c.phase
    requires c'.base == c.base && c'.groups == c.groups && c'.cur == c.cur
    ensures GoodDisk(lay, c')
  {
    hide Recoverable, Recover, Loggable, SameHome, Header, Slot;
  }

  lemma MoreActive(lay: Layout, s: State, s': State)
    requires GoodBufs(lay, s) && s'.bufs == s.bufs && s'.c.disk == s.c.disk && s'.c.lh == s.c.lh
    requires s'.c.phase == s.c.phase
    requires s'.c.base == s.c.base && s'.c.groups == s.c.groups && s'.c.cur == s.c.cur
    requires forall t :: Active(s.c, t) ==> Active(s'.c, t)
    ensures GoodBufs(lay, s')
  {
    hide ApplyEvents, ApplyGroups, Active;
    forall b | b in s'.bufs ensures GoodBuf(lay, s'.c, b, s'.bufs[b]) {
      assert GoodBuf(lay, s.c, b, s.bufs[b]);
      assert Pinned(s'.c, b) == Pinned(s.c, b);
    }
  }

  lemma BeginGroups(c: Core, t: Tid)
    requires GoodGroups(c)
    ensures GoodGroups(c.(ops := c.ops + [Op(t, c.nextOp, {})], outstanding := c.outstanding + 1, nextOp :=
            c.nextOp + 1))
  {
    var c' := c.(ops := c.ops + [Op(t, c.nextOp, {})], outstanding := c.outstanding + 1, nextOp := c.nextOp + 1);
    hide Of;
    forall g | 0 <= g < |c'.groups| ensures WholeGroup(c', g) {
      assert WholeGroup(c, g);
    }
    forall i | 0 <= i < |c'.ops| ensures InProgress(c', c'.ops[i].id) {
      if i < |c.ops| {
        assert InProgress(c, c.ops[i].id);
      }
    }
    forall id: nat | Of(c'.cur, id) != [] ensures InProgress(c', id) && (id in c'.ended || OpenId(c', id)) {
      assert InProgress(c, id);
      if OpenId(c, id) {
        var i :| 0 <= i < |c.ops| && c.ops[i].id == id;
        assert c'.ops[i].id == id;
      }
    }
  }

  lemma EndStep(lay: Layout, s: State, i: nat)
    requires Inv(lay, s) && CanEnd(s, i)
    ensures Inv(lay, DoEnd(s, i))
  {
    hide GoodDisk, GoodGroups, GoodBufs, GoodOps;
    var s' := DoEnd(s, i);
    IdleWhileActive(lay, s.c);
    EndDisk(lay, s.c, s'.c);
    EndOps(lay, s, i);
    EndBufs(lay, s, i);
    EndGroups(lay, s.c, s'.c, i);
  }

  /** While an operation is open, nothing is being committed or recovered. */
  lemma IdleWhileActive(lay: Layout, c: Core)
    requires GoodOps(lay, c) && c.ops != []
    ensures c.phase == Idle && !c.committing && c.outstanding == |c.ops|
    ensures forall j :: 0 <= j < |c.cur| ==> c.cur[j].bno in c.lh
  {
  }

  lemma EndOps(lay: Layout, s: State, i: nat)
    requires GoodOps(lay, s.c) && CanEnd(s, i)
    ensures GoodOps(lay, DoEnd(s, i).c)
  {
  }

  lemma EndDisk(lay: Layout, c: Core, c': Core)
    requires GoodDisk(lay, c) && c.phase == Idle
    requires c'.disk == c.disk && c'.lh == c.lh && c'.base == c.base && c'.groups == c.groups && c'.cur == c.cur
    requires c'.phase == Idle || (c'.phase == Logging(0) && |c.lh| > 0) || (c'.phase == Finishing && c.lh == [])
    requires forall j :: 0 <= j < |c.cur| ==> c.cur[j].bno in c.lh
    ensures GoodDisk(lay, c')
  {
    hide Recoverable, Recover, Loggable, SameHome, Header, Slot;
    assert forall b :: Pinned(c', b) == Pinned(c, b);
    assert |c.cur| > 0 ==> c.cur[0].bno in c.lh;
  }

  lemma EndBufs(lay: Layout, s: State, i: nat)
    requires GoodBufs(lay, s) && GoodOps(lay, s.c) && CanEnd(s, i)
    ensures GoodBufs(lay, DoEnd(s, i))
  {
    var s' := DoEnd(s, i);
    hide ApplyEvents, ApplyGroups;
    assert PinFrom(s'.c) == PinFrom(s.c);
    forall b | b in s'.bufs ensures GoodBuf(lay, s'.c, b, s'.bufs[b]) {
      assert GoodBuf(lay, s.c, b, s.bufs[b]);
      assert Pinned(s'.c, b) == Pinned(s.c, b);
      if s.bufs[b].dirty {
        var t := s.bufs[b].owner.tid;
        var j :| 0 <= j < |s.c.ops| && s.c.ops[j].tid == t;
        assert j != i;
        assert s'.c.ops[if j < i then j else j - 1].tid == t;
      }
    }
  }

  lemma EndGroups(lay: Layout, c: Core, c': Core, i: nat)
    requires GoodGroups(c) && GoodOps(lay, c) && i < |c.ops|
    requires c'.ops == c.ops[..i] + c.ops[i + 1..] && c'.ended == c.ended + {c.ops[i].id}
    requires c'.groups == c.groups && c'.cur == c.cur && c'.trace == c.trace && c'.nextOp == c.nextOp
    ensures GoodGroups(c')
  {
    hide Of, OpenId;
    forall g | 0 <= g < |c'.groups| ensures WholeGroup(c', g) {
      assert WholeGroup(c, g);
    }
    forall j | 0 <= j < |c'.ops| ensures InProgress(c', c'.ops[j].id) {
      assert InProgress(c, c.ops[if j < i then j else j + 1].id);
    }
    forall id: nat | Of(c'.cur, id) != [] ensures InProgress(c', id) && (id in c'.ended || OpenId(c', id)) {
      assert InProgress(c, id);
      StaysOpen(c, c', i, id);
    }
  }

  lemma StaysOpen(c: Core, c': Core, i: nat, id: nat)
    requires i < |c.ops| && c'.ops == c.ops[..i] + c.ops[i + 1..]
    ensures OpenId(c, id) ==> id == c.ops[i].id || OpenId(c', id)
  {
    if OpenId(c, id) && id != c.ops[i].id {
      var j :| 0 <= j < |c.ops| && c.ops[j].id == id;
      assert c'.ops[if j < i then j else j - 1].id == id;
    }
  }

  // ---- log_write ----

  lemma LogWriteStep(lay: Layout, s: State, i: nat, b: nat)
    requires Inv(lay, s) && CanLogWrite(lay, s, i, b)
    ensures Inv(lay, DoLogWrite(lay, s, i, b))
  {
    hide GoodDisk, GoodBufs, GoodGroups, GoodOps;
    LogWriteContents(lay, s, i, b);
    var e := Event(s.c.ops[i].id, b, s.bufs[b].data);
    IdleWhileActive(lay, s.c);
    LogWriteOps(lay, s.c, DoLogWrite(lay, s, i, b).c, i, e);
    LogWriteGroups(lay, s.c, DoLogWrite(lay, s, i, b).c, i, e);
  }

  lemma LogWriteContents(lay: Layout, s: State, i: nat, b: nat)
    requires GoodDisk(lay, s.c) && GoodBufs(lay, s) && GoodOps(lay, s.c) && CanLogWrite(lay, s, i, b)
    ensures GoodDisk(lay, DoLogWrite(lay, s, i, b).c) && GoodBufs(lay, DoLogWrite(lay, s, i, b))
  {
    hide GoodDisk, GoodBufs, GoodOps, View, Pinned;
    var s' := DoLogWrite(lay, s, i, b);
    var e := Event(s.c.ops[i].id, b, s.bufs[b].data);
    SizesAgree(lay, s.c);
    IdleWhileActive(lay, s.c);
    ViewAfter(s.c, s'.c, e);
    LogWritePins(s.c, s'.c, b);
    LogWriteDisk(lay, s.c, s'.c, b, e.data, e);
    LogWriteBufs(lay, s, s', b, e.data);
  }

  lemma SizesAgree(lay: Layout, c: Core)
    requires GoodDisk(lay, c)
    ensures |c.base| == |c.disk| && Fits(lay, c.disk)
  {
  }

  lemma LogWritePins(c: Core, c': Core, b: nat)
    requires c.phase == Idle && c'.phase == Idle
    requires c'.lh == if b in c.lh then c.lh else c.lh + [b]
    ensures forall x :: Pinned(c', x) <==> Pinned(c, x) || x == b
    ensures Pinned(c, b) <==> b in c.lh
  {
    assert forall x :: Pinned(c, x) <==> x in c.lh;
    assert forall x :: Pinned(c', x) <==> x in c'.lh;
  }

  lemma LogWriteDisk(lay: Layout, c: Core, c': Core, b: nat, data: Block, e: Event)
    requires GoodDisk(lay, c) && c.phase == Idle && Home(lay, c.disk, b) && |c.lh| < Capacity(lay)
    requires c'.cur == c.cur + [e] && e.bno == b && e.data == data
    requires c'.disk == c.disk && c'.phase == Idle && c'.base == c.base && c'.groups == c.groups
    requires c'.lh == if b in c.lh then c.lh else c.lh + [b]
    requires View(c') == View(c)[b := data]
    requires forall x :: Pinned(c', x) <==> Pinned(c, x) || x == b
    ensures GoodDisk(lay, c')
  {
    hide Recoverable, Recover, SameHome, View, Pinned;
    assert Loggable(lay, c'.disk, c'.lh);
    forall i | 0 <= i < |c'.lh| ensures Logs(c'.cur, c'.lh[i]) {
      if c'.lh[i] == b {
        assert c'.cur[|c.cur|].bno == b;
      } else {
        assert Logs(c.cur, c.lh[i]);
        var j :| 0 <= j < |c.cur| && c.cur[j].bno == c.lh[i];
        assert c'.cur[j].bno == c.lh[i];
      }
    }
  }

  lemma LogWriteBufs(lay: Layout, s: State, s': State, b: nat, data: Block)
    requires GoodBufs(lay, s) && s.c.phase == Idle && s'.c.phase == Idle
    requires |s.c.base| == |s.c.disk| && b in s.bufs && s.bufs[b].data == data && s.bufs[b].valid && b < |s.c.disk|
    requires s'.c.disk == s.c.disk && s'.c.lh == if b in s.c.lh then s.c.lh else s.c.lh + [b]
    requires View(s'.c) == View(s.c)[b := data] && !InLog(lay, b)
    requires |s'.c.ops| == |s.c.ops| && forall j :: 0 <= j < |s.c.ops| ==> s'.c.ops[j].tid == s.c.ops[j].tid
    requires s'.bufs == s.bufs[b :=
             s.bufs[b].(dirty := false, refcnt := if b in s.c.lh then s.bufs[b].refcnt else s.bufs[b].refcnt + 1)]
    requires forall x :: Pinned(s'.c, x) <==> Pinned(s.c, x) || x == b
    requires Pinned(s.c, b) <==> b in s.c.lh
    ensures GoodBufs(lay, s')
  {
    hide View, Pinned;
    forall x | x in s'.bufs ensures GoodBuf(lay, s'.c, x, s'.bufs[x]) {
      assert GoodBuf(lay, s.c, x, s.bufs[x]);
      if s.bufs[x].dirty {
        var j :| 0 <= j < |s.c.ops| && s.c.ops[j].tid == s.bufs[x].owner.tid;
        assert s'.c.ops[j].tid == s.c.ops[j].tid;
      }
    }
  }

  lemma LogWriteOps(lay: Layout, c: Core, c': Core, i: nat, e: Event)
    requires GoodOps(lay, c) && c.phase == Idle && i < |c.ops| && e.op == c.ops[i].id
    requires c' == c.(lh := if e.bno in c.lh then c.lh else c.lh + [e.bno],
                      ops := c.ops[i := c.ops[i].(touched := c.ops[i].touched + {e.bno})],
                      cur := c.cur + [e], trace := c.trace + [e])
    ensures GoodOps(lay, c')
  {
  }

  lemma LogWriteGroups(lay: Layout, c: Core, c': Core, i: nat, e: Event)
    requires GoodGroups(c) && GoodOps(lay, c) && i < |c.ops| && e.op == c.ops[i].id
    requires |c'.ops| == |c.ops| && (forall j :: 0 <= j < |c.ops| ==> c'.ops[j].id == c.ops[j].id)
    requires c'.groups == c.groups && c'.cur == c.cur + [e] && c'.trace == c.trace + [e]
    requires c'.nextOp == c.nextOp && c'.ended == c.ended
    ensures GoodGroups(c')
  {
    OfAppend(c.cur, e);
    OfAppend(c.trace, e);
    hide Of;
    assert InProgress(c, e.op);
    assert OpenId(c', e.op);
    forall g | 0 <= g < |c'.groups| ensures WholeGroup(c', g) {
      assert WholeGroup(c, g);
      assert Of(c.groups[g], e.op) == [];
    }
    forall id: nat | InProgress(c, id) ensures InProgress(c', id) {
    }
    forall id: nat | Of(c'.cur, id) != [] ensures InProgress(c', id) && (id in c'.ended || OpenId(c', id)) {
      if id != e.op && OpenId(c, id) {
        var j :| 0 <= j < |c.ops| && c.ops[j].id == id;
        assert c'.ops[j].id == id;
      }
    }
  }

  lemma OfAppend(es: seq<Event>, e: Event)
    ensures forall id: nat :: Of(es + [e], id) == Of(es, id) + if e.op == id then [e] else []
  {
    assert (es + [e])[..|es|] == es;
  }

  // ---- Commit ----

  /** A block written through its buffer, when what readers see and which blocks are
      pinned do not change. */
  lemma WriteThrough(lay: Layout, s: State, s': State, b: nat, data: Block)
    requires GoodBufs(lay, s) && b in s.bufs && b < |s.c.disk| && !s.bufs[b].dirty
    requires s'.bufs == s.bufs[b := s.bufs[b].(data := data)] && s'.c.disk == s.c.disk[b := data]
    requires s'.c.ops == s.c.ops && Booting(s'.c) == Booting(s.c) && View(s'.c) == View(s.c)
    requires forall x :: Pinned(s'.c, x) == Pinned(s.c, x)
    requires !InLog(lay, b) && !Booting(s.c) ==> b < |View(s.c)| && data == View(s.c)[b]
    ensures GoodBufs(lay, s')
  {
    hide View;
    forall x | x in s'.bufs ensures GoodBuf(lay, s'.c, x, s'.bufs[x]) {
      assert GoodBuf(lay, s.c, x, s.bufs[x]);
    }
    forall i | PinFrom(s'.c) <= i < |s'.c.lh| ensures s'.c.lh[i] in s'.bufs {
      assert Pinned(s'.c, s'.c.lh[i]);
      assert Pinned(s.c, s'.c.lh[i]);
    }
  }

  /** Without operations no buffer is modified, so a loaded home block shows the view. */
  lemma QuietBuffer(lay: Layout, s: State, b: nat)
    requires GoodBufs(lay, s) && s.c.ops == [] && b in s.bufs
    ensures !s.bufs[b].dirty && GoodBuf(lay, s.c, b, s.bufs[b])
    ensures |View(s.c)| == |s.c.disk| && b < |s.c.disk|
    ensures s.bufs[b].valid && !InLog(lay, b) && !Booting(s.c) ==> s.bufs[b].data == View(s.c)[b]
    ensures s.bufs[b].valid && (InLog(lay, b) || Booting(s.c)) ==> s.bufs[b].data == s.c.disk[b]
  {
    hide View;
    assert GoodBuf(lay, s.c, b, s.bufs[b]);
  }

  lemma CopyToLogStep(lay: Layout, s: State)
    requires Inv(lay, s) && CanCopyToLog(lay, s)
    ensures Inv(lay, DoCopyToLog(lay, s))
  {
    hide GoodDisk, GoodGroups, GoodBufs, ApplyEvents, ApplyGroups;
    var c, s', k := s.c, DoCopyToLog(lay, s), s.c.phase.k;
    assert GoodOps(lay, s'.c);
    PhaseFacts(lay, c);
    assert Home(lay, c.disk, c.lh[k]);
    hide GoodOps;
    QuietBuffer(lay, s, c.lh[k]);
    QuietBuffer(lay, s, Slot(lay, k));
    CopyToLogDisk(lay, c, s'.c, k, s.bufs[c.lh[k]].data);
    WriteThrough(lay, s, s', Slot(lay, k), s.bufs[c.lh[k]].data);
    SameGroups(c, s'.c);
  }

  lemma PhaseFacts(lay: Layout, c: Core)
    requires GoodDisk(lay, c)
    ensures Fits(lay, c.disk) && |c.base| == |c.disk| && Loggable(lay, c.disk, c.lh)
    ensures Recoverable(lay, c.disk)
    ensures forall i :: 0 <= i < |c.lh| ==> Home(lay, c.disk, c.lh[i])
  {
  }

  lemma CopyToLogDisk(lay: Layout, c: Core, c': Core, k: nat, data: Block)
    requires GoodDisk(lay, c) && c.phase == Logging(k) && k < |c.lh|
    requires c.lh[k] < |c.disk| && c.lh[k] < |View(c)| && data == View(c)[c.lh[k]]
    requires Slot(lay, k) < |c.disk| && c' == c.(disk := c.disk[Slot(lay, k) := data], phase := Logging(k + 1))
    ensures GoodDisk(lay, c')
  {
    SlotWriteInvisible(lay, c.disk, k, data);
    assert forall i :: 0 <= i < |c.lh| ==> Home(lay, c.disk, c.lh[i]);
    hide ApplyEvents, ApplyGroups, Recover, DecodeHead, HeadOk;
    assert View(c') == View(c);
    assert forall b :: Pinned(c', b) == Pinned(c, b);
    RecoverAt(lay, c.disk);
  }

  lemma SameGroups(c: Core, c': Core)
    requires GoodGroups(c) && c'.groups == c.groups && c'.cur == c.cur && c'.trace == c.trace
    requires c'.ops == c.ops && c'.nextOp == c.nextOp && c'.ended == c.ended
    ensures GoodGroups(c')
  {
    hide Of;
    forall g | 0 <= g < |c'.groups| ensures WholeGroup(c', g) {
      assert WholeGroup(c, g);
    }
    forall id: nat | InProgress(c, id) ensures InProgress(c', id) {
    }
    forall id: nat | OpenId(c, id) ensures OpenId(c', id) {
    }
  }

  lemma WriteHeadStep(lay: Layout, s: State)
    requires Inv(lay, s) && CanWriteHead(lay, s)
    ensures Inv(lay, DoWriteHead(lay, s))
  {
    hide GoodDisk, GoodGroups, GoodBufs, ApplyEvents, ApplyGroups, EncodeHead;
    var c, s' := s.c, DoWriteHead(lay, s);
    PhaseFacts(lay, c);
    assert GoodOps(lay, s'.c);
    assert c.ops == [] && forall i :: 0 <= i < |c.cur| ==> c.cur[i].bno in c.lh;
    hide GoodOps;
    QuietBuffer(lay, s, lay.start);
    WriteHeadView(c, s'.c);
    WriteHeadDisk(lay, c, s'.c);
    WriteThrough(lay, s, s', lay.start, s'.c.disk[lay.start]);
    WriteHeadGroups(c, s'.c);
  }

  lemma WriteHeadView(c: Core, c': Core)
    requires c'.base == c.base && c'.groups == c.groups + [c.cur] && c'.cur == []
    ensures View(c') == View(c) && Committed(c') == View(c)
  {
    assert c'.groups[..|c.groups|] == c.groups;
  }

  /** The view outside `lh` is what is already committed. */
  lemma ViewOutside(lay: Layout, c: Core)
    requires |c.base| == |c.disk| && forall i :: 0 <= i < |c.cur| ==> c.cur[i].bno in c.lh
    ensures forall b :: Home(lay, c.disk, b) && b !in c.lh ==> View(c)[b] == Committed(c)[b]
  {
    forall b | Home(lay, c.disk, b) && b !in c.lh ensures View(c)[b] == Committed(c)[b] {
      ApplyUntouched(Committed(c), c.cur, b);
    }
  }

  lemma HeadMakesView(lay: Layout, d: DiskImage, lh: seq<nat>, committed: DiskImage, view: DiskImage)
    requires Recoverable(lay, d) && Header(lay, d) == [] && Loggable(lay, d, lh)
    requires SameHome(lay, Recover(lay, d), committed) && |view| == |d|
    requires forall i :: 0 <= i < |lh| ==> lh[i] < |d| && d[Slot(lay, i)] == view[lh[i]]
    requires forall b :: Home(lay, d, b) && b !in lh ==> view[b] == committed[b]
    ensures lay.start < |d| && |lh| <= LOGSIZE && forall i :: 0 <= i < |lh| ==> lh[i] < UINT32
    ensures var e := d[lay.start := EncodeHead(d[lay.start], lh)];
            && Recoverable(lay, e) && Header(lay, e) == lh && SameHome(lay, Recover(lay, e), view)
  {
    assert forall i :: 0 <= i < |lh| ==> Home(lay, d, lh[i]);
    var data := seq(|lh|, i requires 0 <= i < |lh| => d[Slot(lay, i)]);
    hide EncodeHead, Recover, DecodeHead, HeadOk;
    RecoverAt(lay, d);
    assert Loggable(lay, committed, lh) by {
      assert forall i :: 0 <= i < |lh| ==> Home(lay, committed, lh[i]);
    }
    CommitPoint(lay, committed, d, lh, data);
  }

  lemma WriteHeadDisk(lay: Layout, c: Core, c': Core)
    requires GoodDisk(lay, c) && c.phase == Logging(|c.lh|)
    requires forall i :: 0 <= i < |c.cur| ==> c.cur[i].bno in c.lh
    requires forall i :: 0 <= i < |c.lh| ==> c.lh[i] < UINT32
    requires |c.lh| <= LOGSIZE && lay.start < |c.disk|
    requires c' == c.(disk := c.disk[lay.start := EncodeHead(c.disk[lay.start], c.lh)], phase := Installing(0),
                      groups := c.groups + [c.cur], cur := [])
    requires View(c') == View(c) && Committed(c') == View(c)
    ensures GoodDisk(lay, c')
  {
    hide EncodeHead, Recover, DecodeHead, HeadOk, Recoverable, SameHome, View, Committed;
    PhaseFacts(lay, c);
    ViewOutside(lay, c);
    HeadMakesView(lay, c.disk, c.lh, Committed(c), View(c));
    assert Loggable(lay, c'.disk, c.lh) by {
      assert forall i :: 0 <= i < |c.lh| ==> Home(lay, c'.disk, c.lh[i]);
    }
    assert forall b :: Pinned(c', b) == Pinned(c, b);
  }

  lemma WriteHeadGroups(c: Core, c': Core)
    requires GoodGroups(c) && c.ops == [] && c'.ops == []
    requires c'.groups == c.groups + [c.cur] && c'.cur == [] && c'.trace == c.trace
    requires c'.nextOp == c.nextOp && c'.ended == c.ended
    ensures GoodGroups(c')
  {
    assert forall id: nat :: Of(c'.cur, id) == [];
    hide Of;
    var n := |c.groups|;
    forall g | 0 <= g < |c'.groups| ensures WholeGroup(c', g) {
      if g < n {
        assert WholeGroup(c, g);
      } else {
        assert forall id: nat :: Of(c.cur, id) != [] ==> InProgress(c, id);
      }
    }
  }

  lemma InstallStep(lay: Layout, s: State)
    requires Inv(lay, s) && CanInstall(lay, s)
    ensures Inv(lay, DoInstall(lay, s))
  {
    hide GoodDisk, GoodGroups, GoodBufs, ApplyEvents, ApplyGroups;
    var c, s', k := s.c, DoInstall(lay, s), s.c.phase.k;
    PhaseFacts(lay, c);
    assert GoodOps(lay, s'.c);
    hide GoodOps;
    QuietBuffer(lay, s, Slot(lay, k));
    assert Home(lay, c.disk, c.lh[k]);
    QuietBuffer(lay, s, c.lh[k]);
    InstallPins(c, s'.c, k);
    InstallDisk(lay, c, s'.c, k);
    InstallBufs(lay, s, s', k);
    SameGroups(c, s'.c);
  }

  lemma InstallPins(c: Core, c': Core, k: nat)
    requires c.phase == Installing(k) && c'.phase == Installing(k + 1) && c'.lh == c.lh && k < |c.lh| && Distinct(c.lh)
    ensures forall b :: Pinned(c', b) <==> Pinned(c, b) && b != c.lh[k]
    ensures Pinned(c, c.lh[k])
  {
    forall b | Pinned(c, b) && b != c.lh[k] ensures Pinned(c', b) {
      var i :| PinFrom(c) <= i < |c.lh| && c.lh[i] == b;
      assert PinFrom(c') <= i;
    }
  }

  lemma InstallDisk(lay: Layout, c: Core, c': Core, k: nat)
    requires GoodDisk(lay, c) && c.phase == Installing(k) && k < |c.lh| && c.lh[k] < |c.disk| && Slot(lay, k) < |c.disk|
    requires c' == c.(disk := c.disk[c.lh[k] := c.disk[Slot(lay, k)]], phase := Installing(k + 1))
    requires forall b :: Pinned(c', b) <==> Pinned(c, b) && b != c.lh[k]
    ensures GoodDisk(lay, c') && c.lh[k] < |View(c)| && c.disk[Slot(lay, k)] == View(c)[c.lh[k]]
  {
    hide Recover, Header, DecodeHead, HeadOk, ApplyEvents, ApplyGroups, Pinned, Loggable;
    InstallFacts(lay, c, k);
    InstallLoggable(lay, c, k);
    PhaseFacts(lay, c);
    assert View(c') == View(c) && Committed(c') == Committed(c);
    forall i | 0 <= i < |c.lh|
      ensures c.lh[i] < |c.disk| && Slot(lay, i) < |c.disk| && c'.disk[Slot(lay, i)] == View(c)[c.lh[i]] {
      assert c.disk[Slot(lay, i)] == View(c)[c.lh[i]];
    }
  }

  lemma InstallFacts(lay: Layout, c: Core, k: nat)
    requires GoodDisk(lay, c) && c.phase == Installing(k) && k < |c.lh| && c.lh[k] < |c.disk| && Slot(lay, k) < |c.disk|
    ensures var d := c.disk[c.lh[k] := c.disk[Slot(lay, k)]];
            && Recoverable(lay, d) && Header(lay, d) == c.lh && SameHome(lay, Recover(lay, d), Recover(lay, c.disk))
    ensures forall i :: 0 <= i < |c.lh| ==> Slot(lay, i) != c.lh[k] && Slot(lay, i) < |c.disk|
    ensures forall i :: 0 <= i < |c.lh| && i != k ==> c.lh[i] != c.lh[k]
  {
    hide Recover, DecodeHead, ApplyEvents, ApplyGroups, Pinned;
    InstallInvisible(lay, c.disk, k);
    PhaseFacts(lay, c);
  }

  lemma InstallLoggable(lay: Layout, c: Core, k: nat)
    requires GoodDisk(lay, c) && k < |c.lh| && c.lh[k] < |c.disk| && Slot(lay, k) < |c.disk|
    ensures Loggable(lay, c.disk[c.lh[k] := c.disk[Slot(lay, k)]], c.lh)
  {
    hide Recover, Header, DecodeHead, HeadOk, Recoverable, ApplyEvents, ApplyGroups, Pinned;
    PhaseFacts(lay, c);
  }

  lemma InstallBufs(lay: Layout, s: State, s': State, k: nat)
    requires GoodBufs(lay, s) && s.c.phase == Installing(k) && k < |s.c.lh| && s.c.lh[k] in s.bufs
    requires s.c.lh[k] < |s.c.disk| && !InLog(lay, s.c.lh[k]) && s.bufs[s.c.lh[k]].refcnt > 0
    requires Slot(lay, k) in s.bufs && s'.c.ops == s.c.ops == []
    requires var home, from := s.c.lh[k], s.bufs[Slot(lay, k)].data;
             && s'.bufs == s.bufs[home := s.bufs[home].(data := from, refcnt := s.bufs[home].refcnt - 1)]
             && s'.c.disk == s.c.disk[home := from] && home < |View(s.c)| && from == View(s.c)[home]
    requires s'.c.phase == Installing(k + 1) && s'.c.lh == s.c.lh && View(s'.c) == View(s.c)
    requires forall b :: Pinned(s'.c, b) <==> Pinned(s.c, b) && b != s.c.lh[k]
    requires Pinned(s.c, s.c.lh[k])
    ensures GoodBufs(lay, s')
  {
    hide View, Pinned;
    forall x | x in s'.bufs ensures GoodBuf(lay, s'.c, x, s'.bufs[x]) {
      assert GoodBuf(lay, s.c, x, s.bufs[x]);
    }
  }

  lemma ClearHeadStep(lay: Layout, s: State)
    requires Inv(lay, s) && CanClearHead(lay, s)
    ensures Inv(lay, DoClearHead(lay, s))
  {
    hide GoodDisk, GoodGroups, GoodBufs, ApplyEvents, ApplyGroups, EncodeHead;
    var c, s' := s.c, DoClearHead(lay, s);
    PhaseFacts(lay, c);
    assert c.ops == [];
    QuietBuffer(lay, s, lay.start);
    ClearedDisk(lay, c, s'.c);
    assert GoodOps(lay, s'.c);
    hide GoodOps;
    WriteThrough(lay, s, s', lay.start, s'.c.disk[lay.start]);
    SameGroups(c, s'.c);
  }

  lemma ClearedDisk(lay: Layout, c: Core, c': Core)
    requires GoodDisk(lay, c) && lay.start < |c.disk|
    requires c.phase == Installing(|c.lh|) || c.phase == Recovering(|c.lh|)
    requires c' == c.(disk := c.disk[lay.start := EncodeHead(c.disk[lay.start], [])], lh := [],
                      phase := if c.phase.Installing? then Finishing else Idle)
    ensures GoodDisk(lay, c') && c.cur == [] && View(c') == View(c)
    ensures c.phase.Recovering? ==> forall b :: Home(lay, c.disk, b) ==> c.disk[b] == View(c)[b]
  {
    hide EncodeHead, Recover, DecodeHead, HeadOk, ApplyGroups;
    PhaseFacts(lay, c);
    assert View(c) == Committed(c) && View(c') == View(c) && Committed(c') == Committed(c);
    assert forall b :: !Pinned(c', b) && !Pinned(c, b);
    RecoverAt(lay, c.disk);
    ClearInvisible(lay, c.disk);
    RecoverAt(lay, c'.disk);
  }

  lemma FinishStep(lay: Layout, s: State)
    requires Inv(lay, s) && s.c.phase == Finishing
    ensures Inv(lay, DoFinish(s))
  {
    hide GoodDisk, GoodGroups, GoodBufs, ApplyEvents, ApplyGroups;
    var c, s' := s.c, DoFinish(s);
    assert GoodOps(lay, s'.c);
    hide GoodOps;
    FinishDisk(lay, c, s'.c);
    FinishBufs(lay, s, s');
    SameGroups(c, s'.c);
  }

  lemma FinishDisk(lay: Layout, c: Core, c': Core)
    requires GoodDisk(lay, c) && c.phase == Finishing && c' == c.(committing := false, phase := Idle)
    ensures GoodDisk(lay, c') && c.lh == []
  {
    hide Recover, DecodeHead, HeadOk, ApplyEvents, ApplyGroups, Recoverable;
    assert forall b :: Pinned(c', b) == Pinned(c, b);
  }

  lemma FinishBufs(lay: Layout, s: State, s': State)
    requires GoodBufs(lay, s) && s.c.phase == Finishing && s' == s.(c := s.c.(committing := false, phase := Idle))
    requires s.c.lh == []
    ensures GoodBufs(lay, s')
  {
    hide ApplyEvents, ApplyGroups;
    assert forall b :: Pinned(s'.c, b) == Pinned(s.c, b);
    forall x | x in s'.bufs ensures GoodBuf(lay, s'.c, x, s'.bufs[x]) {
      assert GoodBuf(lay, s.c, x, s.bufs[x]);
    }
  }

  // ---- Crash and recovery ----

  lemma CrashStep(lay: Layout, s: State, t: Tid)
    requires Inv(lay, s)
    ensures Inv(lay, DoCrash(s, t))
  {
    var c, s' := s.c, DoCrash(s, t);
    assert GoodDisk(lay, s'.c) by {
      hide Recover, DecodeHead, HeadOk, ApplyEvents, ApplyGroups, Recoverable, GoodBufs, GoodGroups, GoodOps;
      assert Committed(s'.c) == Committed(c);
    }
    assert GoodBufs(lay, s');
    assert GoodOps(lay, s'.c);
    assert GoodGroups(s'.c) by {
      hide GoodDisk, GoodBufs, GoodOps;
      CrashGroups(c, s'.c);
    }
  }

  lemma CrashGroups(c: Core, c': Core)
    requires GoodGroups(c) && c'.groups == c.groups && c'.cur == [] && c'.trace == c.trace
    requires c'.ops == [] && c'.nextOp == c.nextOp && c'.ended == c.ended
    ensures GoodGroups(c')
  {
    assert forall id: nat :: Of(c'.cur, id) == [];
    hide Of;
    forall g | 0 <= g < |c'.groups| ensures WholeGroup(c', g) {
      assert WholeGroup(c, g);
    }
  }

  lemma ReadHeadStep(lay: Layout, s: State)
    requires Inv(lay, s) && CanReadHead(lay, s)
    ensures Inv(lay, DoReadHead(lay, s))
  {
    hide GoodDisk, GoodGroups, GoodBufs, ApplyEvents, ApplyGroups, DecodeHead, HeadOk;
    var c, s' := s.c, DoReadHead(lay, s);
    PhaseFacts(lay, c);
    assert c.ops == [];
    QuietBuffer(lay, s, lay.start);
    ReadHeadDisk(lay, c, s'.c);
    assert GoodOps(lay, s'.c);
    hide GoodOps;
    BootBufs(lay, s, s');
    SameGroups(c, s'.c);
  }

  lemma ReadHeadDisk(lay: Layout, c: Core, c': Core)
    requires GoodDisk(lay, c) && c.phase == Boot && lay.start < |c.disk| && HeadOk(c.disk[lay.start])
    requires c' == c.(lh := DecodeHead(c.disk[lay.start]), phase := Recovering(0))
    ensures GoodDisk(lay, c') && c.cur == []
  {
    hide Recover, DecodeHead, HeadOk, ApplyEvents, ApplyGroups;
    assert Committed(c') == Committed(c);
  }

  /** Buffers while booting mirror the disk and carry no pins. */
  lemma BootBufs(lay: Layout, s: State, s': State)
    requires GoodBufs(lay, s) && Booting(s.c) && Booting(s'.c) && s'.bufs == s.bufs && s'.c.disk == s.c.disk
    requires s'.c.ops == s.c.ops
    requires |View(s'.c)| == |s.c.disk|
    ensures GoodBufs(lay, s')
  {
    hide View;
    forall x | x in s'.bufs ensures GoodBuf(lay, s'.c, x, s'.bufs[x]) {
      assert GoodBuf(lay, s.c, x, s.bufs[x]);
    }
  }

  lemma RecoverOneStep(lay: Layout, s: State)
    requires Inv(lay, s) && CanRecoverOne(lay, s)
    ensures Inv(lay, DoRecoverOne(lay, s))
  {
    hide GoodDisk, GoodGroups, GoodBufs, ApplyEvents, ApplyGroups;
    var c, s', k := s.c, DoRecoverOne(lay, s), s.c.phase.k;
    PhaseFacts(lay, c);
    assert GoodOps(lay, s'.c);
    hide GoodOps;
    QuietBuffer(lay, s, Slot(lay, k));
    QuietBuffer(lay, s, c.lh[k]);
    RecoverOneDisk(lay, c, s'.c, k);
    WriteThrough(lay, s, s', c.lh[k], s.bufs[Slot(lay, k)].data);
    SameGroups(c, s'.c);
  }

  lemma RecoverOneDisk(lay: Layout, c: Core, c': Core, k: nat)
    requires GoodDisk(lay, c) && c.phase == Recovering(k) && k < |c.lh| && c.lh[k] < |c.disk| && Slot(lay, k) < |c.disk|
    requires c' == c.(disk := c.disk[c.lh[k] := c.disk[Slot(lay, k)]], phase := Recovering(k + 1))
    ensures GoodDisk(lay, c')
  {
    hide Recover, DecodeHead, HeadOk, Recoverable, ApplyEvents, ApplyGroups, SameHome;
    InstallInvisible(lay, c.disk, k);
    PhaseFacts(lay, c);
    assert Committed(c') == Committed(c);
    SameHomeTrans(lay, Recover(lay, c'.disk), Recover(lay, c.disk), Committed(c));
    assert Loggable(lay, c'.disk, c'.lh) by {
      assert forall i :: 0 <= i < |c.lh| ==> Home(lay, c'.disk, c.lh[i]);
    }
  }

  lemma SameHomeTrans(lay: Layout, d: DiskImage, e: DiskImage, f: DiskImage)
    requires SameHome(lay, d, e) && SameHome(lay, e, f)
    ensures SameHome(lay, d, f)
  {
  }

  lemma RecoverClearStep(lay: Layout, s: State)
    requires Inv(lay, s) && CanRecoverClear(lay, s)
    ensures Inv(lay, DoRecoverClear(lay, s))
  {
    hide GoodDisk, GoodGroups, GoodBufs, ApplyEvents, ApplyGroups, EncodeHead;
    var c, s' := s.c, DoRecoverClear(lay, s);
    PhaseFacts(lay, c);
    assert c.ops == [];
    QuietBuffer(lay, s, lay.start);
    ClearedDisk(lay, c, s'.c);
    assert GoodOps(lay, s'.c);
    hide GoodOps;
    EndBootBufs(lay, s, s');
    SameGroups(c, s'.c);
  }

  lemma EndBootBufs(lay: Layout, s: State, s': State)
    requires GoodBufs(lay, s) && Booting(s.c) && s'.c.phase == Idle && s'.c.lh == [] && s'.c.ops == s.c.ops == []
    requires lay.start in s.bufs && lay.start < |s.c.disk| && InLog(lay, lay.start)
    requires |s'.c.disk| == |s.c.disk| && s'.c.disk == s.c.disk[lay.start := s'.c.disk[lay.start]]
    requires s'.bufs == s.bufs[lay.start := s.bufs[lay.start].(data := s'.c.disk[lay.start])]
    requires View(s'.c) == View(s.c) && |View(s.c)| == |s.c.disk|
    requires forall b :: Home(lay, s.c.disk, b) ==> s.c.disk[b] == View(s.c)[b]
    ensures GoodBufs(lay, s')
  {
    hide View;
    assert forall b :: !Pinned(s'.c, b) && !Pinned(s.c, b);
    forall x | x in s'.bufs ensures GoodBuf(lay, s'.c, x, s'.bufs[x]) {
      assert GoodBuf(lay, s.c, x, s.bufs[x]);
      assert !InLog(lay, x) ==> Home(lay, s.c.disk, x);
    }
  }

  // ---- Every step, every run ----

  lemma StepInv(lay: Layout, s: State, a: Action)
    requires Inv(lay, s) && Enabled(lay, s, a)
    ensures Inv(lay, Next(lay, s, a))
  {
    hide Inv;
    match a
    case Get(t, b, junk) => GetStep(lay, s, t, b, junk);
    case Lock(t, b) => LockStep(lay, s, t, b);
    case Fill(t, b) => FillStep(lay, s, t, b);
    case Modify(i, b, data) => ModifyStep(lay, s, i, b, data);
    case Release(t, b) => ReleaseStep(lay, s, t, b);
    case Evict(b) => EvictStep(lay, s, b);
    case Begin(t) => BeginStep(lay, s, t);
    case LogWrite(i, b) => LogWriteStep(lay, s, i, b);
    case End(i) => EndStep(lay, s, i);
    case CopyToLog => CopyToLogStep(lay, s);
    case WriteHead => WriteHeadStep(lay, s);
    case Install => InstallStep(lay, s);
    case ClearHead => ClearHeadStep(lay, s);
    case Finish => FinishStep(lay, s);
    case Crash(t) => CrashStep(lay, s, t);
    case ReadHead => ReadHeadStep(lay, s);
    case RecoverOne => RecoverOneStep(lay, s);
    case RecoverClear => RecoverClearStep(lay, s);
  }

  lemma InitInv(lay: Layout, image: DiskImage, t: Tid)
    requires Recoverable(lay, image)
    ensures Inv(lay, Init(lay, image, t))
  {
    RecoverAt(lay, image);
  }

  lemma {:induction false} RunInv(lay: Layout, s: State, acts: seq<Action>, s': State)
    requires Inv(lay, s) && Run(lay, s, acts, s')
    ensures Inv(lay, s')
    decreases |acts|
  {
    hide Inv, Enabled, Next;
    if acts != [] {
      StepInv(lay, s, acts[0]);
      RunInv(lay, Next(lay, s, acts[0]), acts[1..], s');
    }
  }

  /** States a machine booted from `image` can reach. */
  ghost predicate Reachable(lay: Layout, image: DiskImage, t: Tid, s: State)
    requires Recoverable(lay, image)
  {
    exists acts :: Run(lay, Init(lay, image, t), acts, s)
  }

  lemma ReachableInv(lay: Layout, image: DiskImage, t: Tid, s: State)
    requires Recoverable(lay, image) && Reachable(lay, image, t, s)
    ensures Inv(lay, s)
  {
    hide Inv, Run;
    InitInv(lay, image, t);
    var acts :| Run(lay, Init(lay, image, t), acts, s);
    RunInv(lay, Init(lay, image, t), acts, s);
  }
}
