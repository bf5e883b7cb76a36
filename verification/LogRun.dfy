/** The machine's steps do lead somewhere: a run that boots, logs one block in one
    operation and commits it, within the buffers there are. */
module LogRun {
  import opened Blocks
  import opened LogSpec
  import opened LogMachine
  import opened LogReserve
  import opened LogPanic

  /** The one operation is over and its block waits for the commit by thread t. */
  ghost predicate Waiting(lay: Layout, s: State, d: DiskImage, t: Tid, v: nat, data: Block) {
    var c := s.c;
    && Fits(lay, d) && Home(lay, d, v) && c.disk == d && c.lh == [v] && c.committing && c.committer == t
    && c.phase == Logging(0) && c.outstanding == 0 && c.ops == [] && c.groups == [] && c.cur == [Event(0, v, data)]
    && s.bufs == map[v := Buf(data, true, 1, Nobody, {}, false)]
  }

  /** The operation has its block locked and loaded. */
  ghost predicate Open(lay: Layout, s: State, d: DiskImage, t: Tid, v: nat) {
    var c := s.c;
    && Fits(lay, d) && Home(lay, d, v) && lay.size > 1 && c.disk == d && c.lh == [] && !c.committing && c.phase == Idle
    && c.outstanding == 1 && c.ops == [Op(t, 0, {})] && c.groups == [] && c.cur == []
    && s.bufs == map[v := Buf(d[v], true, 1, Held(t), {t}, false)]
  }

  lemma OpenOperation(lay: Layout, image: DiskImage, t: Tid, v: nat) returns (s: State, d: DiskImage)
    requires Recoverable(lay, image) && Header(lay, image) == [] && Home(lay, image, v) && lay.size > 1
    ensures Leads(lay, Init(lay, image, t), s) && Open(lay, s, d, t, v) && |d| == |image|
  {
    hide Leads, Recover;
    var s0 := Init(lay, image, t);
    var s1 := BootEmpty(lay, image, t);
    d := s1.c.disk;
    var s2 := DoBegin(s1, t);
    LeadsOn(lay, s0, s1, Begin(t));
    var s3 := DoGet(s2, t, v, ZeroBlock);
    LeadsOn(lay, s0, s2, Get(t, v, ZeroBlock));
    var s4 := DoLock(s3, t, v);
    LeadsOn(lay, s0, s3, Lock(t, v));
    s := DoFill(s4, t, v);
    LeadsOn(lay, s0, s4, Fill(t, v));
  }

  lemma EndOperation(lay: Layout, s0: State, s: State, d: DiskImage, t: Tid, v: nat, data: Block) returns (s': State)
    requires Leads(lay, s0, s) && Open(lay, s, d, t, v)
    ensures Leads(lay, s0, s') && Waiting(lay, s', d, t, v, data)
  {
    hide Leads;
    var s1 := DoModify(lay, s, 0, v, data);
    LeadsOn(lay, s0, s, Modify(0, v, data));
    var s2 := DoLogWrite(lay, s1, 0, v);
    assert |{} + {v}| == 1;
    LeadsOn(lay, s0, s1, LogWrite(0, v));
    var s3 := DoRelease(s2, t, v);
    LeadsOn(lay, s0, s2, Release(t, v));
    s' := DoEnd(s3, 0);
    LeadsOn(lay, s0, s3, End(0));
    assert s'.c.ops == [] && s3.bufs[v].refs == {} && s'.c.lh == [v] && s'.c.cur == [Event(0, v, data)];
  }

  /** Thread t takes, locks and loads block b. */
  lemma Take(lay: Layout, s0: State, s: State, t: Tid, b: nat) returns (s': State)
    requires Leads(lay, s0, s) && b < |s.c.disk| && b !in s.bufs && |s.bufs| < NBUF
    requires t == s.c.committer && s.c.committing
    ensures Leads(lay, s0, s') && s'.c == s.c && s'.bufs == s.bufs[b := Buf(s.c.disk[b], true, 1, Held(t), {t}, false)]
  {
    hide Leads;
    var s1 := DoGet(s, t, b, ZeroBlock);
    LeadsOn(lay, s0, s, Get(t, b, ZeroBlock));
    var s2 := DoLock(s1, t, b);
    LeadsOn(lay, s0, s1, Lock(t, b));
    s' := DoFill(s2, t, b);
    LeadsOn(lay, s0, s2, Fill(t, b));
  }

  /** write_log: the block is in slot 0, and both buffers are locked. */
  ghost predicate InSlot(lay: Layout, s: State, d: DiskImage, t: Tid, v: nat, data: Block) {
    var c := s.c;
    && Fits(lay, d) && Home(lay, d, v) && lay.size > 1 && c.lh == [v] && c.committing && c.committer == t
    && c.disk == d[Slot(lay, 0) := data] && c.phase == Logging(1) && c.outstanding == 0 && c.ops == []
    && c.groups == [] && c.cur == [Event(0, v, data)]
    && s.bufs.Keys == {v, Slot(lay, 0)} && s.bufs[v] == Buf(data, true, 2, Held(t), {t}, false)
    && s.bufs[Slot(lay, 0)] == Buf(data, true, 1, Held(t), {t}, false)
  }

  lemma WriteSlot(lay: Layout, s0: State, s: State, d: DiskImage, t: Tid, v: nat, data: Block) returns (s': State)
    requires Leads(lay, s0, s) && Waiting(lay, s, d, t, v, data) && lay.size > 1
    ensures Leads(lay, s0, s') && InSlot(lay, s', d, t, v, data)
  {
    hide Leads;
    var s1 := LockHome(lay, s0, s, d, t, v, data);
    var s2 := Take(lay, s0, s1, t, Slot(lay, 0));
    s' := DoCopyToLog(lay, s2);
    LeadsOn(lay, s0, s2, CopyToLog);
  }

  lemma LockHome(lay: Layout, s0: State, s: State, d: DiskImage, t: Tid, v: nat, data: Block) returns (s': State)
    requires Leads(lay, s0, s) && Waiting(lay, s, d, t, v, data)
    ensures Leads(lay, s0, s') && s'.c == s.c && s'.bufs == map[v := Buf(data, true, 2, Held(t), {t}, false)]
  {
    hide Leads;
    var s1 := DoGet(s, t, v, ZeroBlock);
    LeadsOn(lay, s0, s, Get(t, v, ZeroBlock));
    assert s1.bufs[v].refs == {t};
    s' := DoLock(s1, t, v);
    LeadsOn(lay, s0, s1, Lock(t, v));
  }

  /** Boot, one operation that logs one block, and its commit: the group is committed, the
      block is home, and the machine is ready for the next operation. */
  lemma OneCommit(lay: Layout, image: DiskImage, t: Tid, v: nat, data: Block) returns (s: State)
    requires Recoverable(lay, image) && Header(lay, image) == [] && Home(lay, image, v) && lay.size > 1
    ensures Leads(lay, Init(lay, image, t), s)
    ensures s.c.phase == Idle && s.c.outstanding == 0 && !s.c.committing && s.c.groups == [[Event(0, v, data)]]
    ensures v < |s.c.disk| && s.c.disk[v] == data
  {
    hide Leads, Recover, EncodeHead, Open, Waiting, InSlot, HeadWritten;
    var s0 := Init(lay, image, t);
    var s1, d := OpenOperation(lay, image, t, v);
    var s2 := EndOperation(lay, s0, s1, d, t, v, data);
    var s3 := WriteSlot(lay, s0, s2, d, t, v, data);
    var s4 := WriteHeader(lay, s0, s3, d, t, v, data);
    s := InstallAndClear(lay, s0, s4, t, v, data);
  }

  /** The header is written, and the three buffers are locked. */
  ghost predicate HeadWritten(lay: Layout, s: State, t: Tid, v: nat, data: Block) {
    var c, slot := s.c, Slot(lay, 0);
    && Fits(lay, c.disk) && Home(lay, c.disk, v) && lay.size > 1 && c.lh == [v] && c.committing && c.committer == t
    && c.phase == Installing(0) && c.outstanding == 0 && c.groups == [[Event(0, v, data)]]
    && Holds(s, t, v) && Holds(s, t, slot) && Holds(s, t, lay.start)
    && s.bufs[v].refcnt == 2 && s.bufs[slot].data == data
  }

  lemma WriteHeader(lay: Layout, s0: State, s: State, d: DiskImage, t: Tid, v: nat, data: Block) returns (s': State)
    requires Leads(lay, s0, s) && InSlot(lay, s, d, t, v, data)
    ensures Leads(lay, s0, s') && HeadWritten(lay, s', t, v, data)
  {
    hide Leads, EncodeHead;
    var s1 := Take(lay, s0, s, t, lay.start);
    s' := DoWriteHead(lay, s1);
    LeadsOn(lay, s0, s1, WriteHead);
  }

  lemma InstallAndClear(lay: Layout, s0: State, s: State, t: Tid, v: nat, data: Block) returns (s': State)
    requires Leads(lay, s0, s) && HeadWritten(lay, s, t, v, data)
    ensures Leads(lay, s0, s')
    ensures s'.c.phase == Idle && s'.c.outstanding == 0 && !s'.c.committing && s'.c.groups == [[Event(0, v, data)]]
    ensures v < |s'.c.disk| && s'.c.disk[v] == data
  {
    hide Leads, EncodeHead;
    var s1 := DoInstall(lay, s);
    LeadsOn(lay, s0, s, Install);
    var s2 := DoClearHead(lay, s1);
    LeadsOn(lay, s0, s1, ClearHead);
    s' := DoFinish(s2);
    LeadsOn(lay, s0, s2, Finish);
  }
}
