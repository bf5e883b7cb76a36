/** The other half of the reservation: with a log area of LOGSIZE blocks or fewer, three
    operations that keep their budget fill the log, and the next block new to one of
    them makes log_write panic. */
module LogPanic {
  import opened Common
  import opened Blocks
  import opened LogSpec
  import opened LogMachine
  import opened LogMachineInv
  import opened LogReserve

  ghost predicate Leads(lay: Layout, s0: State, s: State) {
    exists acts :: BudgetRun(lay, s0, acts, s)
  }

  lemma {:induction false} RunAppend(lay: Layout, s0: State, acts: seq<Action>, s: State, a: Action)
    requires BudgetRun(lay, s0, acts, s) && Enabled(lay, s, a) && InBudget(s, a)
    ensures BudgetRun(lay, s0, acts + [a], Next(lay, s, a))
    decreases |acts|
  {
    hide Enabled, Next, InBudget;
    if acts == [] {
      assert acts + [a] == [a] && [a][1..] == [];
    } else {
      RunAppend(lay, Next(lay, s0, acts[0]), acts[1..], s, a);
      assert (acts + [a])[1..] == acts[1..] + [a];
    }
  }

  lemma LeadsOn(lay: Layout, s0: State, s: State, a: Action)
    requires Leads(lay, s0, s) && Enabled(lay, s, a) && InBudget(s, a)
    ensures Leads(lay, s0, Next(lay, s, a))
  {
    hide BudgetRun, Enabled, Next, InBudget;
    var acts :| BudgetRun(lay, s0, acts, s);
    RunAppend(lay, s0, acts, s, a);
  }

  /** The k-th of a row of home blocks behind the log area. */
  function Victim(lay: Layout, k: nat): nat {
    lay.start + lay.size + k
  }

  /** How many of the first k victims operation j has logged. */
  function Share(k: nat, j: nat): nat {
    if k <= MAXOPBLOCKS * j then 0
    else if k >= MAXOPBLOCKS * (j + 1) then MAXOPBLOCKS
    else k - MAXOPBLOCKS * j
  }

  /** The operation that logs victim k. */
  function Logger(k: nat): nat {
    k / MAXOPBLOCKS
  }

  /** As many operations as the log has room for. */
  const NOPS := LOGSIZE / MAXOPBLOCKS

  /** Threads 0, 1 and 2 have open operations and have logged the first k victims,
      MAXOPBLOCKS each; nothing else is cached. */
  ghost predicate Filled(lay: Layout, s: State, k: nat) {
    var c := s.c;
    && Fits(lay, c.disk) && Victim(lay, LOGSIZE) < |c.disk|
    && c.phase == Idle && !c.committing && c.outstanding == |c.ops| == NOPS
    && |c.lh| == k && (forall i :: 0 <= i < k ==> c.lh[i] == Victim(lay, i))
    && (forall j :: 0 <= j < NOPS ==>
          c.ops[j].tid == j && |c.ops[j].touched| == Share(k, j) && forall b :: b in c.ops[j].touched ==>
            b < Victim(lay, k))
    && (forall b :: b in s.bufs ==> b < Victim(lay, k)) && |s.bufs| == k
  }

  /** ... and thread j has the k-th victim locked and loaded. */
  ghost predicate Poised(lay: Layout, s: State, k: nat, j: nat) {
    var c := s.c;
    && Fits(lay, c.disk) && Victim(lay, LOGSIZE) < |c.disk|
    && c.phase == Idle && !c.committing && c.outstanding == |c.ops| == NOPS
    && |c.lh| == k && (forall i :: 0 <= i < k ==> c.lh[i] == Victim(lay, i))
    && (forall j :: 0 <= j < NOPS ==>
          c.ops[j].tid == j && |c.ops[j].touched| == Share(k, j) && forall b :: b in c.ops[j].touched ==>
            b < Victim(lay, k))
    && (forall b :: b in s.bufs ==> b <= Victim(lay, k)) && |s.bufs| == k + 1
    && Holds(s, j, Victim(lay, k))
  }

  lemma Poise(lay: Layout, s0: State, s: State, k: nat, j: nat) returns (s': State)
    requires Leads(lay, s0, s) && Filled(lay, s, k) && k < LOGSIZE && j < NOPS
    ensures Leads(lay, s0, s') && Poised(lay, s', k, j)
  {
    hide Leads;
    var b := Victim(lay, k);
    var s1 := DoGet(s, j, b, ZeroBlock);
    LeadsOn(lay, s0, s, Get(j, b, ZeroBlock));
    var s2 := DoLock(s1, j, b);
    LeadsOn(lay, s0, s1, Lock(j, b));
    s' := DoFill(s2, j, b);
    LeadsOn(lay, s0, s2, Fill(j, b));
  }

  lemma PoisedWants(lay: Layout, s: State, k: nat)
    requires Poised(lay, s, k, Logger(k)) && k < LOGSIZE
    ensures WantsNewBlock(lay, s, Logger(k), Victim(lay, k))
    ensures CanLogWrite(lay, s, Logger(k), Victim(lay, k)) <==> k < lay.size - 1
  {
    var j := Logger(k);
    assert s.c.ops[j].tid == j && |s.c.ops[j].touched| == Share(k, j);
  }

  lemma LogVictim(lay: Layout, s0: State, s: State, k: nat) returns (s': State)
    requires Leads(lay, s0, s) && Poised(lay, s, k, Logger(k)) && k < LOGSIZE && k < lay.size - 1
    ensures Leads(lay, s0, s') && Filled(lay, s', k + 1)
    ensures WantsLogWrite(lay, s', Logger(k), Victim(lay, k)) && Victim(lay, k) in s'.c.ops[Logger(k)].touched
  {
    hide Leads;
    var b, j := Victim(lay, k), Logger(k);
    PoisedWants(lay, s, k);
    s' := DoLogWrite(lay, s, j, b);
    assert |s.c.ops[j].touched + {b}| == |s.c.ops[j].touched| + 1;
    LeadsOn(lay, s0, s, LogWrite(j, b));
    assert b !in s.c.lh;
    forall i | 0 <= i < NOPS
      ensures s'.c.ops[i].tid == i && |s'.c.ops[i].touched| == Share(k + 1, i)
      ensures forall x :: x in s'.c.ops[i].touched ==> x < Victim(lay, k + 1)
    {
      assert s.c.ops[i].tid == i && |s.c.ops[i].touched| == Share(k, i);
    }
  }

  lemma {:induction false} FillLog(lay: Layout, s0: State, s: State, k: nat) returns (s': State)
    requires Leads(lay, s0, s) && Filled(lay, s, 0) && k <= LOGSIZE && (k == 0 || k <= lay.size - 1)
    ensures Leads(lay, s0, s') && Filled(lay, s', k)
  {
    hide Leads, Filled, Poised;
    if k == 0 {
      s' := s;
    } else {
      var s1 := FillLog(lay, s0, s, k - 1);
      var s2 := Poise(lay, s0, s1, k - 1, Logger(k - 1));
      s' := LogVictim(lay, s0, s2, k - 1);
    }
  }

  /** Booting an image with an empty header, up to where the header is read. */
  lemma BootRead(lay: Layout, image: DiskImage, t: Tid) returns (s: State)
    requires Recoverable(lay, image) && Header(lay, image) == []
    ensures Leads(lay, Init(lay, image, t), s)
    ensures s.c == Init(lay, image, t).c.(phase := Recovering(0))
    ensures s.bufs == map[lay.start := Buf(image[lay.start], true, 1, Held(t), {t}, false)]
  {
    hide Leads, EncodeHead, Recover, DecodeHead, HeadOk, Word;
    var s0, b := Init(lay, image, t), lay.start;
    LeadsSelf(lay, s0);
    var s1 := DoGet(s0, t, b, ZeroBlock);
    LeadsOn(lay, s0, s0, Get(t, b, ZeroBlock));
    var s2 := DoLock(s1, t, b);
    LeadsOn(lay, s0, s1, Lock(t, b));
    var s3 := DoFill(s2, t, b);
    LeadsOn(lay, s0, s2, Fill(t, b));
    s := DoReadHead(lay, s3);
    LeadsOn(lay, s0, s3, ReadHead);
  }

  /** ... and to its end: nothing is listed and nothing cached. */
  lemma BootEmpty(lay: Layout, image: DiskImage, t: Tid) returns (s: State)
    requires Recoverable(lay, image) && Header(lay, image) == []
    ensures Leads(lay, Init(lay, image, t), s)
    ensures s.c.phase == Idle && s.c.lh == [] && s.c.ops == [] && s.c.outstanding == 0 && !s.c.committing
    ensures |s.c.disk| == |image| && s.bufs == map[] && s.c.groups == [] && s.c.cur == [] && s.c.nextOp == 0
  {
    hide Leads, EncodeHead, Recover, DecodeHead, HeadOk, Word;
    var s0, b := Init(lay, image, t), lay.start;
    var s1 := BootRead(lay, image, t);
    var s2 := DoRecoverClear(lay, s1);
    LeadsOn(lay, s0, s1, RecoverClear);
    var s3 := DoRelease(s2, t, b);
    LeadsOn(lay, s0, s2, Release(t, b));
    s := DoEvict(s3, b);
    LeadsOn(lay, s0, s3, Evict(b));
  }

  lemma LeadsSelf(lay: Layout, s: State)
    ensures Leads(lay, s, s)
  {
    assert BudgetRun(lay, s, [], s);
  }

  lemma ThreeBegin(lay: Layout, s0: State, s: State) returns (s': State)
    requires Leads(lay, s0, s) && Fits(lay, s.c.disk) && Victim(lay, LOGSIZE) < |s.c.disk|
    requires s.c.phase == Idle && s.c.lh == [] && s.c.ops == [] && s.c.outstanding == 0 && !s.c.committing
    requires s.bufs == map[]
    ensures Leads(lay, s0, s') && Filled(lay, s', 0)
  {
    hide Leads;
    var s1 := DoBegin(s, 0);
    LeadsOn(lay, s0, s, Begin(0));
    var s2 := DoBegin(s1, 1);
    LeadsOn(lay, s0, s1, Begin(1));
    s' := DoBegin(s2, 2);
    LeadsOn(lay, s0, s2, Begin(2));
  }

  /** No operation within its budget is ever refused a block that is new to it. */
  ghost predicate NeverRefused(lay: Layout, image: DiskImage, t: Tid)
    requires Recoverable(lay, image)
  {
    forall s, i, b :: Leads(lay, Init(lay, image, t), s) && WantsNewBlock(lay, s, i, b) ==> CanLogWrite(lay, s, i, b)
  }

  lemma EnoughRoom(lay: Layout, image: DiskImage, t: Tid)
    requires Recoverable(lay, image) && lay.size > LOGSIZE
    ensures NeverRefused(lay, image, t)
  {
    forall s, i, b | Leads(lay, Init(lay, image, t), s) && WantsNewBlock(lay, s, i, b)
      ensures CanLogWrite(lay, s, i, b) {
      var acts :| BudgetRun(lay, Init(lay, image, t), acts, s);
      RoomForNewBlock(lay, image, t, acts, s, i, b);
    }
  }

  /** The reservation is enough exactly when the log area is longer than LOGSIZE. */
  lemma ReservationExact(lay: Layout, image: DiskImage, t: Tid)
    requires Recoverable(lay, image) && Header(lay, image) == [] && Victim(lay, LOGSIZE) < |image|
    ensures NeverRefused(lay, image, t) <==> lay.size > LOGSIZE
  {
    hide Leads, Filled, Poised, CanLogWrite, WantsNewBlock, Recover;
    if lay.size > LOGSIZE {
      EnoughRoom(lay, image, t);
    } else {
      var s0, k := Init(lay, image, t), lay.size - 1;
      var s1 := BootEmpty(lay, image, t);
      var s2 := ThreeBegin(lay, s0, s1);
      var s3 := FillLog(lay, s0, s2, k);
      var s4 := Poise(lay, s0, s3, k, Logger(k));
      PoisedWants(lay, s4, k);
    }
  }

  /** The last victim, and the operation that logs it. */
  const LAST := LOGSIZE - 1
  const LASTOP := NOPS - 1

  /** Even a long enough log refuses to absorb once LOGSIZE blocks are listed: an
      operation that logs the block it has just logged again then panics. */
  lemma AbsorptionRefused(lay: Layout, image: DiskImage, t: Tid) returns (s: State)
    requires Recoverable(lay, image) && Header(lay, image) == [] && Victim(lay, LOGSIZE) < |image| && lay.size > LOGSIZE
    ensures Leads(lay, Init(lay, image, t), s)
    ensures WantsLogWrite(lay, s, LASTOP, Victim(lay, LAST)) && Victim(lay, LAST) in s.c.ops[LASTOP].touched
    ensures Victim(lay, LAST) in s.c.lh && |s.c.ops[LASTOP].touched| == MAXOPBLOCKS
    ensures !CanLogWrite(lay, s, LASTOP, Victim(lay, LAST))
  {
    hide Leads, Recover;
    var s0 := Init(lay, image, t);
    var s1 := BootEmpty(lay, image, t);
    var s2 := ThreeBegin(lay, s0, s1);
    var s3 := FillLog(lay, s0, s2, LAST);
    var s4 := Poise(lay, s0, s3, LAST, LASTOP);
    s := LogVictim(lay, s0, s4, LAST);
    assert s.c.lh[LAST] == Victim(lay, LAST);
  }

  /** Blocks that an operation may log before any log_write of it can be refused: what
      the log holds less what the other operations may fill it with. */
  function Room(lay: Layout): int {
    (if lay.size - 1 < LOGSIZE then lay.size - 1 else LOGSIZE) - LASTOP * MAXOPBLOCKS
  }

  /** No operation that has logged fewer than m blocks is ever refused, be the block new
      to the log or listed already. */
  ghost predicate NeverRefusedBelow(lay: Layout, image: DiskImage, t: Tid, m: nat)
    requires Recoverable(lay, image)
  {
    forall s, i: nat, b: nat ::
      Leads(lay, Init(lay, image, t), s) && WantsLogWrite(lay, s, i, b) && |s.c.ops[i].touched| < m ==>
      CanLogWrite(lay, s, i, b)
  }

  /** ... when it logs a block that is listed already. */
  ghost predicate AbsorbsBelow(lay: Layout, image: DiskImage, t: Tid, m: nat)
    requires Recoverable(lay, image)
  {
    forall s, i: nat, b: nat ::
      Leads(lay, Init(lay, image, t), s) && WantsLogWrite(lay, s, i, b) && b in s.c.lh && |s.c.ops[i].touched| < m ==>
      CanLogWrite(lay, s, i, b)
  }

  lemma RoomLeft(lay: Layout, image: DiskImage, t: Tid, s: State, i: nat, b: nat)
    requires Recoverable(lay, image) && Leads(lay, Init(lay, image, t), s)
    requires WantsLogWrite(lay, s, i, b) && |s.c.ops[i].touched| < Room(lay)
    ensures CanLogWrite(lay, s, i, b)
  {
    hide BudgetRun, GoodDisk, GoodBufs, GoodGroups, Recover;
    var acts :| BudgetRun(lay, Init(lay, image, t), acts, s);
    InitInv(lay, image, t);
    ReservedRun(lay, Init(lay, image, t), acts, s);
    OwedIncludes(s.c.ops, i);
  }

  /** A run at whose end the log is full and its last operation has used no more than
      the room. */
  lemma FullLog(lay: Layout, image: DiskImage, t: Tid) returns (s: State)
    requires Recoverable(lay, image) && Header(lay, image) == [] && Victim(lay, LOGSIZE) < |image|
    ensures Leads(lay, Init(lay, image, t), s)
    ensures exists b :: WantsLogWrite(lay, s, LASTOP, b) && !CanLogWrite(lay, s, LASTOP, b)
    ensures LASTOP < |s.c.ops| && |s.c.ops[LASTOP].touched| == if Room(lay) < 0 then 0 else Room(lay)
  {
    hide Leads, Recover;
    if lay.size > LOGSIZE {
      s := AbsorptionRefused(lay, image, t);
    } else {
      var s0, k := Init(lay, image, t), lay.size - 1;
      var s1 := BootEmpty(lay, image, t);
      var s2 := ThreeBegin(lay, s0, s1);
      var s3 := FillLog(lay, s0, s2, k);
      s := Poise(lay, s0, s3, k, LASTOP);
      assert s.c.ops[LASTOP].tid == LASTOP && |s.c.ops[LASTOP].touched| == Share(k, LASTOP);
      assert WantsLogWrite(lay, s, LASTOP, Victim(lay, k)) && !CanLogWrite(lay, s, LASTOP, Victim(lay, k));
    }
  }

  /** log_write is never refused to operations that have logged fewer than m blocks
      exactly when m is within the room. */
  lemma RefusedExact(lay: Layout, image: DiskImage, t: Tid, m: nat)
    requires Recoverable(lay, image) && Header(lay, image) == [] && Victim(lay, LOGSIZE) < |image|
    ensures NeverRefusedBelow(lay, image, t, m) <==> m == 0 || m <= Room(lay)
  {
    hide Leads, CanLogWrite, Recover;
    if m == 0 || m <= Room(lay) {
      forall s, i: nat, b: nat |
        Leads(lay, Init(lay, image, t), s) && WantsLogWrite(lay, s, i, b) && |s.c.ops[i].touched| < m
        ensures CanLogWrite(lay, s, i, b) {
        RoomLeft(lay, image, t, s, i, b);
      }
    } else {
      var s := FullLog(lay, image, t);
      var b :| WantsLogWrite(lay, s, LASTOP, b) && !CanLogWrite(lay, s, LASTOP, b);
    }
  }

  /** A listed block is always absorbed exactly below MAXOPBLOCKS blocks logged. */
  lemma AbsorptionExact(lay: Layout, image: DiskImage, t: Tid, m: nat)
    requires Recoverable(lay, image) && Header(lay, image) == [] && Victim(lay, LOGSIZE) < |image| && lay.size > LOGSIZE
    ensures AbsorbsBelow(lay, image, t, m) <==> m <= MAXOPBLOCKS
  {
    hide Leads, CanLogWrite, Recover;
    RefusedExact(lay, image, t, m);
    if m > MAXOPBLOCKS {
      var s := AbsorptionRefused(lay, image, t);
    }
  }
}
