/** begin_op's reservation (kernel/log.c:133) against log_write's capacity test
    (kernel/log.c:220): every operation that logs at most MAXOPBLOCKS distinct blocks
    finds room for each block new to it exactly when the log area has more than LOGSIZE
    blocks. mkfs makes it LOGSIZE blocks long (mkfs/mkfs.c:25). */
module LogReserve {
  import opened Common
  import opened Blocks
  import opened LogSpec
  import opened LogMachine
  import opened LogMachineInv

  /** The number of buffers, which is also how many blocks can be cached at a time
      (kernel/param.h:11). */
  const NBUF := 3 * MAXOPBLOCKS

  /** An operation may touch at most MAXOPBLOCKS distinct blocks, and a block that is not
      cached takes one of NBUF buffers. */
  predicate InBudget(s: State, a: Action) {
    && (a.LogWrite? && a.i < |s.c.ops| ==> |s.c.ops[a.i].touched + {a.b}| <= MAXOPBLOCKS)
    && (a.Get? && a.b !in s.bufs ==> |s.bufs| < NBUF)
  }

  ghost predicate BudgetRun(lay: Layout, s: State, acts: seq<Action>, s': State)
    decreases |acts|
  {
    if acts == [] then s == s'
    else Enabled(lay, s, acts[0]) && InBudget(s, acts[0]) && BudgetRun(lay, Next(lay, s, acts[0]), acts[1..], s')
  }

  /** Slots still owed to the open operations. */
  function Owed(ops: seq<Op>): int {
    if ops == [] then 0 else Owed(ops[..|ops| - 1]) + MAXOPBLOCKS - |ops[|ops| - 1].touched|
  }

  ghost predicate Reserved(c: Core) {
    && (forall i :: 0 <= i < |c.ops| ==> |c.ops[i].touched| <= MAXOPBLOCKS)
    && (forall i, b :: 0 <= i < |c.ops| && b in c.ops[i].touched ==> b in c.lh)
    && |c.lh| + Owed(c.ops) <= LOGSIZE
  }

  lemma {:induction false} OwedBounds(ops: seq<Op>)
    requires forall i :: 0 <= i < |ops| ==> |ops[i].touched| <= MAXOPBLOCKS
    ensures 0 <= Owed(ops) <= |ops| * MAXOPBLOCKS
  {
    if ops != [] {
      OwedBounds(ops[..|ops| - 1]);
    }
  }

  lemma {:induction false} OwedUpdate(ops: seq<Op>, i: nat, op: Op)
    requires i < |ops|
    ensures Owed(ops[i := op]) == Owed(ops) + |ops[i].touched| - |op.touched|
  {
    var n := |ops| - 1;
    if i < n {
      OwedUpdate(ops[..n], i, op);
      assert ops[i := op][..n] == ops[..n][i := op];
    } else {
      assert ops[i := op][..n] == ops[..n];
    }
  }

  lemma {:induction false} OwedRemove(ops: seq<Op>, i: nat)
    requires i < |ops|
    ensures Owed(ops[..i] + ops[i + 1..]) == Owed(ops) - MAXOPBLOCKS + |ops[i].touched|
  {
    var n := |ops| - 1;
    if i < n {
      OwedRemove(ops[..n], i);
      assert (ops[..i] + ops[i + 1..])[..n - 1] == ops[..n][..i] + ops[..n][i + 1..];
    } else {
      assert ops[..i] + ops[i + 1..] == ops[..n];
    }
  }

  /** One operation's share is part of what is owed. */
  lemma {:induction false} OwedIncludes(ops: seq<Op>, i: nat)
    requires i < |ops| && forall j :: 0 <= j < |ops| ==> |ops[j].touched| <= MAXOPBLOCKS
    ensures Owed(ops) >= MAXOPBLOCKS - |ops[i].touched|
  {
    OwedRemove(ops, i);
    OwedBounds(ops[..i] + ops[i + 1..]);
  }

  /** Steps that touch neither the list nor the operations. */
  predicate Elsewhere(a: Action) {
    !(a.Begin? || a.LogWrite? || a.End? || a.ClearHead? || a.Crash? || a.ReadHead? || a.RecoverClear?)
  }

  lemma ElsewhereKeeps(lay: Layout, s: State, a: Action)
    requires Enabled(lay, s, a) && Elsewhere(a)
    ensures Next(lay, s, a).c.lh == s.c.lh && Next(lay, s, a).c.ops == s.c.ops
  {
    hide EncodeHead, CanBegin, CanEnd, CanLogWrite;
  }

  /** Steps that leave no operation open. */
  lemma NothingOpen(lay: Layout, s: State, a: Action)
    requires Inv(lay, s) && Enabled(lay, s, a) && (a.ClearHead? || a.Crash? || a.ReadHead? || a.RecoverClear?)
    ensures Next(lay, s, a).c.ops == [] && |Next(lay, s, a).c.lh| <= LOGSIZE
  {
    hide GoodDisk, GoodBufs, GoodGroups, EncodeHead;
    if a.ReadHead? {
      ReadHeadStep(lay, s);
      SizeOfList(lay, Next(lay, s, a));
    }
  }

  lemma BeginReserved(s: State, t: Tid)
    requires Reserved(s.c) && CanBegin(s, t) && s.c.outstanding == |s.c.ops|
    ensures Reserved(DoBegin(s, t).c)
  {
    OwedBounds(s.c.ops);
    assert DoBegin(s, t).c.ops[..|s.c.ops|] == s.c.ops;
  }

  lemma EndReserved(s: State, i: nat)
    requires Reserved(s.c) && i < |s.c.ops| && s.c.outstanding >= 1
    ensures Reserved(DoEnd(s, i).c)
  {
    OwedRemove(s.c.ops, i);
  }

  lemma ReservedStep(lay: Layout, s: State, a: Action)
    requires Inv(lay, s) && Reserved(s.c) && Enabled(lay, s, a) && InBudget(s, a)
    ensures Reserved(Next(lay, s, a).c)
  {
    if Elsewhere(a) {
      hide Next, Enabled, Inv;
      ElsewhereKeeps(lay, s, a);
    } else if a.Begin? {
      hide Reserved, CanBegin, GoodDisk, GoodBufs, GoodGroups;
      BeginReserved(s, a.t);
    } else if a.End? {
      hide Reserved, Inv;
      EndReserved(s, a.i);
    } else if a.LogWrite? {
      hide Reserved, Inv;
      LogWriteReserved(s.c, Next(lay, s, a).c, a.i, a.b);
    } else {
      hide Next, Enabled, Inv;
      NothingOpen(lay, s, a);
    }
  }

  lemma SizeOfList(lay: Layout, s: State)
    requires Inv(lay, s)
    ensures |s.c.lh| <= LOGSIZE
  {
    PhaseFacts(lay, s.c);
  }

  lemma LogWriteReserved(c: Core, c': Core, i: nat, b: nat)
    requires Reserved(c) && i < |c.ops| && |c.ops[i].touched + {b}| <= MAXOPBLOCKS
    requires c'.lh == if b in c.lh then c.lh else c.lh + [b]
    requires c'.ops == c.ops[i := c.ops[i].(touched := c.ops[i].touched + {b})]
    ensures Reserved(c')
  {
    OwedUpdate(c.ops, i, c.ops[i].(touched := c.ops[i].touched + {b}));
    if b in c.ops[i].touched {
      assert c.ops[i].touched + {b} == c.ops[i].touched;
    }
  }

  lemma {:induction false} ReservedRun(lay: Layout, s: State, acts: seq<Action>, s': State)
    requires Inv(lay, s) && Reserved(s.c) && BudgetRun(lay, s, acts, s')
    ensures Inv(lay, s') && Reserved(s'.c)
    decreases |acts|
  {
    hide Inv, Reserved, Enabled, Next, InBudget;
    if acts != [] {
      StepInv(lay, s, acts[0]);
      ReservedStep(lay, s, acts[0]);
      ReservedRun(lay, Next(lay, s, acts[0]), acts[1..], s');
    }
  }

  /** Operation i is about to log b, which is new to it and within its budget. */
  predicate WantsNewBlock(lay: Layout, s: State, i: nat, b: nat) {
    WantsLogWrite(lay, s, i, b) && b !in s.c.ops[i].touched && |s.c.ops[i].touched| < MAXOPBLOCKS
  }

  /** In a run where operations keep their budget, a block new to its operation finds
      fewer than LOGSIZE blocks listed. */
  lemma RoomForNewBlock(lay: Layout, image: DiskImage, t: Tid, acts: seq<Action>, s: State, i: nat, b: nat)
    requires Recoverable(lay, image) && BudgetRun(lay, Init(lay, image, t), acts, s) && WantsNewBlock(lay, s, i, b)
    ensures |s.c.lh| < LOGSIZE && s.c.outstanding >= 1
  {
    hide BudgetRun, GoodDisk, GoodBufs, GoodGroups, Recover;
    InitInv(lay, image, t);
    ReservedRun(lay, Init(lay, image, t), acts, s);
    OwedIncludes(s.c.ops, i);
  }
}
