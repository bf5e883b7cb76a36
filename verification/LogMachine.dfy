/** The log under concurrency and crashes, as steps (kernel/log.c, kernel/bio.c).

    Threads reference, lock, fill, modify and release buffers one step at a time;
    operations begin, log blocks and end; the last one out commits with one step per
    block write; a crash may follow any step, also during recovery. Buffers nobody
    references may be recycled at any time. */
module LogMachine {
  import opened Common
  import opened Blocks
  import opened LogSpec

  type Tid = nat

  /** `refs` (who counts in refcnt) and `dirty` (changed since the last log_write) are
      bookkeeping; the kernel has only the other fields. */
  datatype Buf = Buf(data: Block, valid: bool, refcnt: nat, owner: Owner, refs: set<Tid>, dirty: bool)
  datatype Owner = Nobody | Held(tid: Tid)

  /** One content given to log_write by operation `op`. */
  datatype Event = Event(op: nat, bno: nat, data: Block)

  /** An operation between begin_op and end_op, with the blocks it has logged. */
  datatype Op = Op(tid: Tid, id: nat, touched: set<nat>)

  datatype Phase =
    | Idle
    | Logging(k: nat)     // write_log has copied k blocks
    | Installing(k: nat)  // header written, k blocks installed
    | Finishing           // header erased, `committing` still set
    | Boot
    | Recovering(k: nat)  // header read, k blocks installed

  /** Everything but the buffers. `base` is the home image at the first boot, `groups`
      the committed groups, `cur` the group being built, `trace` every event ever
      issued and `ended` the operations that reached end_op; these five are bookkeeping. */
  datatype Core = Core(
    disk: DiskImage, lh: seq<nat>, outstanding: nat, committing: bool, committer: Tid, phase: Phase,
    ops: seq<Op>, nextOp: nat,
    base: DiskImage, groups: seq<seq<Event>>, cur: seq<Event>, trace: seq<Event>, ended: set<nat>)

  datatype State = State(c: Core, bufs: map<nat, Buf>)

  datatype Action =
    | Get(t: Tid, b: nat, junk: Block)
    | Lock(t: Tid, b: nat)
    | Fill(t: Tid, b: nat)
    | Modify(i: nat, b: nat, data: Block)
    | Release(t: Tid, b: nat)
    | Evict(b: nat)
    | Begin(t: Tid)
    | LogWrite(i: nat, b: nat)
    | End(i: nat)
    | CopyToLog
    | WriteHead
    | Install
    | ClearHead
    | Finish
    | Crash(t: Tid)
    | ReadHead
    | RecoverOne
    | RecoverClear

  // ---- Contents ----

  /** The image after the given contents are stored in order. */
  function ApplyEvents(d: DiskImage, es: seq<Event>): (e: DiskImage)
    ensures |e| == |d|
  {
    if es == [] then d else
      var e := ApplyEvents(d, es[..|es| - 1]);
      var last := es[|es| - 1];
      if last.bno < |e| then e[last.bno := last.data] else e
  }

  function ApplyGroups(d: DiskImage, gs: seq<seq<Event>>): (e: DiskImage)
    ensures |e| == |d|
  {
    if gs == [] then d else ApplyEvents(ApplyGroups(d, gs[..|gs| - 1]), gs[|gs| - 1])
  }

  /** What the home blocks of a crash now would come back as. */
  function Committed(c: Core): (d: DiskImage)
    ensures |d| == |c.base|
  {
    ApplyGroups(c.base, c.groups)
  }

  /** What readers of home blocks should see now. */
  function View(c: Core): (d: DiskImage)
    ensures |d| == |c.base|
  {
    ApplyEvents(Committed(c), c.cur)
  }

  // ---- Steps ----

  predicate Booting(c: Core) {
    c.phase.Boot? || c.phase.Recovering?
  }

  /** Index of the first block of `lh` that still has its pin. */
  function PinFrom(c: Core): nat {
    match c.phase
    case Installing(k) => k
    case Boot => |c.lh|
    case Recovering(_) => |c.lh|
    case _ => 0
  }

  ghost predicate Pinned(c: Core, b: nat) {
    exists i :: PinFrom(c) <= i < |c.lh| && c.lh[i] == b
  }

  ghost predicate Active(c: Core, t: Tid) {
    exists i :: 0 <= i < |c.ops| && c.ops[i].tid == t
  }

  /** Thread t has buffer b locked and its content is loaded. */
  predicate Holds(s: State, t: Tid, b: nat) {
    b in s.bufs && s.bufs[b].owner == Held(t) && s.bufs[b].valid
  }

  // ---- Steps on one buffer ----

  /** bget: take a reference, recycling a free buffer if the block is not cached. Log
      blocks are only used by the committing or recovering thread. */
  predicate CanGet(lay: Layout, s: State, t: Tid, b: nat) {
    && b < |s.c.disk|
    && (InLog(lay, b) || Booting(s.c) ==> t == s.c.committer && (s.c.committing || Booting(s.c)))
    && (b in s.bufs ==> t !in s.bufs[b].refs)
  }

  function DoGet(s: State, t: Tid, b: nat, junk: Block): State {
    if b in s.bufs then
      s.(bufs := s.bufs[b := s.bufs[b].(refcnt := s.bufs[b].refcnt + 1, refs := s.bufs[b].refs + {t})])
    else
      s.(bufs := s.bufs[b := Buf(junk, false, 1, Nobody, {t}, false)])
  }

  predicate CanLock(s: State, t: Tid, b: nat) {
    b in s.bufs && t in s.bufs[b].refs && s.bufs[b].owner == Nobody
  }

  function DoLock(s: State, t: Tid, b: nat): State
    requires CanLock(s, t, b)
  {
    s.(bufs := s.bufs[b := s.bufs[b].(owner := Held(t))])
  }

  /** bread: load the block if the buffer is not valid. */
  predicate CanFill(s: State, t: Tid, b: nat) {
    b in s.bufs && s.bufs[b].owner == Held(t) && !s.bufs[b].valid && b < |s.c.disk|
  }

  function DoFill(s: State, t: Tid, b: nat): State
    requires CanFill(s, t, b)
  {
    s.(bufs := s.bufs[b := s.bufs[b].(data := s.c.disk[b], valid := true)])
  }

  predicate CanModify(lay: Layout, s: State, i: nat, b: nat) {
    i < |s.c.ops| && Holds(s, s.c.ops[i].tid, b) && Home(lay, s.c.disk, b)
  }

  function DoModify(lay: Layout, s: State, i: nat, b: nat, data: Block): State
    requires CanModify(lay, s, i, b)
  {
    s.(bufs := s.bufs[b := s.bufs[b].(data := data, dirty := true)])
  }

  /** brelse: a modified buffer has been given to log_write first. */
  predicate CanRelease(s: State, t: Tid, b: nat) {
    b in s.bufs && s.bufs[b].owner == Held(t) && !s.bufs[b].dirty && s.bufs[b].refcnt > 0
  }

  function DoRelease(s: State, t: Tid, b: nat): State
    requires CanRelease(s, t, b)
  {
    s.(bufs := s.bufs[b := s.bufs[b].(owner := Nobody, refs := s.bufs[b].refs - {t}, refcnt := s.bufs[b].refcnt - 1)])
  }

  predicate CanEvict(s: State, b: nat) {
    b in s.bufs && s.bufs[b].refcnt == 0
  }

  function DoEvict(s: State, b: nat): State {
    s.(bufs := s.bufs - {b})
  }

  // ---- Operations ----

  ghost predicate CanBegin(s: State, t: Tid) {
    && !s.c.committing && !Booting(s.c) && !Active(s.c, t)
    && |s.c.lh| + (s.c.outstanding + 1) * MAXOPBLOCKS <= LOGSIZE
  }

  function DoBegin(s: State, t: Tid): State {
    var c := s.c;
    s.(c := c.(ops := c.ops + [Op(t, c.nextOp, {})], outstanding := c.outstanding + 1, nextOp := c.nextOp + 1))
  }

  /** What log_write asks before its two panics are ruled out. */
  predicate WantsLogWrite(lay: Layout, s: State, i: nat, b: nat) {
    i < |s.c.ops| && Holds(s, s.c.ops[i].tid, b) && Home(lay, s.c.disk, b)
  }

  predicate CanLogWrite(lay: Layout, s: State, i: nat, b: nat) {
    && WantsLogWrite(lay, s, i, b)
    && !(|s.c.lh| >= LOGSIZE || |s.c.lh| >= lay.size - 1)
    && !(s.c.outstanding < 1)
  }

  function DoLogWrite(lay: Layout, s: State, i: nat, b: nat): State
    requires CanLogWrite(lay, s, i, b)
  {
    var c := s.c;
    var op, buf := c.ops[i], s.bufs[b];
    var e := Event(op.id, b, buf.data);
    State(
      c.(lh := if b in c.lh then c.lh else c.lh + [b],
         ops := c.ops[i := op.(touched := op.touched + {b})],
         cur := c.cur + [e], trace := c.trace + [e]),
      s.bufs[b := buf.(dirty := false, refcnt := if b in c.lh then buf.refcnt else buf.refcnt + 1)])
  }

  /** end_op by a caller that has logged everything it modified. */
  ghost predicate CanEnd(s: State, i: nat) {
    && i < |s.c.ops| && s.c.outstanding >= 1 && !s.c.committing
    && forall b :: b in s.bufs && s.bufs[b].owner == Held(s.c.ops[i].tid) ==> !s.bufs[b].dirty
  }

  function DoEnd(s: State, i: nat): State
    requires i < |s.c.ops| && s.c.outstanding >= 1
  {
    var c := s.c;
    var last := c.outstanding == 1;
    s.(c := c.(ops := c.ops[..i] + c.ops[i + 1..], outstanding := c.outstanding - 1,
               committing := last, committer := if last then c.ops[i].tid else c.committer,
               phase := if !last then c.phase else if |c.lh| > 0 then Logging(0) else Finishing,
               ended := c.ended + {c.ops[i].id}))
  }

  // ---- Commit and recovery, one block write per step ----

  /** The committing thread has locked log slot k and home block lh[k]. */
  predicate HasPair(lay: Layout, s: State, k: nat) {
    && k < |s.c.lh| && Slot(lay, k) < |s.c.disk| && s.c.lh[k] < |s.c.disk|
    && Holds(s, s.c.committer, Slot(lay, k)) && Holds(s, s.c.committer, s.c.lh[k])
  }

  /** The committing thread has locked the header block, and `lh` fits in it. */
  predicate HasHead(lay: Layout, s: State) {
    && Holds(s, s.c.committer, lay.start) && lay.start < |s.c.disk|
    && |s.c.lh| <= LOGSIZE && forall i :: 0 <= i < |s.c.lh| ==> s.c.lh[i] < UINT32
  }

  predicate CanCopyToLog(lay: Layout, s: State) {
    s.c.phase.Logging? && HasPair(lay, s, s.c.phase.k)
  }

  function DoCopyToLog(lay: Layout, s: State): State
    requires CanCopyToLog(lay, s)
  {
    var c := s.c;
    var slot, from := Slot(lay, c.phase.k), s.bufs[c.lh[c.phase.k]].data;
    State(c.(disk := c.disk[slot := from], phase := Logging(c.phase.k + 1)),
          s.bufs[slot := s.bufs[slot].(data := from)])
  }

  predicate CanWriteHead(lay: Layout, s: State) {
    s.c.phase == Logging(|s.c.lh|) && HasHead(lay, s)
  }

  function DoWriteHead(lay: Layout, s: State): State
    requires CanWriteHead(lay, s)
  {
    var c := s.c;
    var head := EncodeHead(s.bufs[lay.start].data, c.lh);
    State(c.(disk := c.disk[lay.start := head], phase := Installing(0), groups := c.groups + [c.cur], cur := []),
          s.bufs[lay.start := s.bufs[lay.start].(data := head)])
  }

  predicate CanInstall(lay: Layout, s: State) {
    && s.c.phase.Installing? && HasPair(lay, s, s.c.phase.k)
    && s.bufs[s.c.lh[s.c.phase.k]].refcnt > 0
  }

  function DoInstall(lay: Layout, s: State): State
    requires CanInstall(lay, s)
  {
    var c := s.c;
    var home, from := c.lh[c.phase.k], s.bufs[Slot(lay, c.phase.k)].data;
    State(c.(disk := c.disk[home := from], phase := Installing(c.phase.k + 1)),
          s.bufs[home := s.bufs[home].(data := from, refcnt := s.bufs[home].refcnt - 1)])
  }

  predicate CanClearHead(lay: Layout, s: State) {
    s.c.phase == Installing(|s.c.lh|) && HasHead(lay, s)
  }

  function DoClearHead(lay: Layout, s: State): State
    requires CanClearHead(lay, s)
  {
    var head := EncodeHead(s.bufs[lay.start].data, []);
    State(s.c.(disk := s.c.disk[lay.start := head], phase := Finishing, lh := []),
          s.bufs[lay.start := s.bufs[lay.start].(data := head)])
  }

  function DoFinish(s: State): State {
    s.(c := s.c.(committing := false, phase := Idle))
  }

  /** Power loss: the disk survives, memory does not; thread t boots next. */
  function DoCrash(s: State, t: Tid): State {
    State(s.c.(lh := [], outstanding := 0, committing := false, committer := t, phase := Boot, ops := [], cur := []),
      map[])
  }

  predicate CanReadHead(lay: Layout, s: State) {
    s.c.phase == Boot && Holds(s, s.c.committer, lay.start) && HeadOk(s.bufs[lay.start].data)
  }

  function DoReadHead(lay: Layout, s: State): State
    requires CanReadHead(lay, s)
  {
    s.(c := s.c.(lh := DecodeHead(s.bufs[lay.start].data), phase := Recovering(0)))
  }

  predicate CanRecoverOne(lay: Layout, s: State) {
    s.c.phase.Recovering? && HasPair(lay, s, s.c.phase.k)
  }

  function DoRecoverOne(lay: Layout, s: State): State
    requires CanRecoverOne(lay, s)
  {
    var c := s.c;
    var home, from := c.lh[c.phase.k], s.bufs[Slot(lay, c.phase.k)].data;
    State(c.(disk := c.disk[home := from], phase := Recovering(c.phase.k + 1)),
          s.bufs[home := s.bufs[home].(data := from)])
  }

  predicate CanRecoverClear(lay: Layout, s: State) {
    s.c.phase == Recovering(|s.c.lh|) && HasHead(lay, s)
  }

  function DoRecoverClear(lay: Layout, s: State): State
    requires CanRecoverClear(lay, s)
  {
    var head := EncodeHead(s.bufs[lay.start].data, []);
    State(s.c.(disk := s.c.disk[lay.start := head], phase := Idle, lh := []),
          s.bufs[lay.start := s.bufs[lay.start].(data := head)])
  }

  // ---- Runs ----

  ghost predicate Enabled(lay: Layout, s: State, a: Action) {
    match a
    case Get(t, b, _) => CanGet(lay, s, t, b)
    case Lock(t, b) => CanLock(s, t, b)
    case Fill(t, b) => CanFill(s, t, b)
    case Modify(i, b, _) => CanModify(lay, s, i, b)
    case Release(t, b) => CanRelease(s, t, b)
    case Evict(b) => CanEvict(s, b)
    case Begin(t) => CanBegin(s, t)
    case LogWrite(i, b) => CanLogWrite(lay, s, i, b)
    case End(i) => CanEnd(s, i)
    case CopyToLog => CanCopyToLog(lay, s)
    case WriteHead => CanWriteHead(lay, s)
    case Install => CanInstall(lay, s)
    case ClearHead => CanClearHead(lay, s)
    case Finish => s.c.phase == Finishing
    case Crash(_) => true
    case ReadHead => CanReadHead(lay, s)
    case RecoverOne => CanRecoverOne(lay, s)
    case RecoverClear => CanRecoverClear(lay, s)
  }

  ghost function Next(lay: Layout, s: State, a: Action): State
    requires Enabled(lay, s, a)
  {
    match a
    case Get(t, b, junk) => DoGet(s, t, b, junk)
    case Lock(t, b) => DoLock(s, t, b)
    case Fill(t, b) => DoFill(s, t, b)
    case Modify(i, b, data) => DoModify(lay, s, i, b, data)
    case Release(t, b) => DoRelease(s, t, b)
    case Evict(b) => DoEvict(s, b)
    case Begin(t) => DoBegin(s, t)
    case LogWrite(i, b) => DoLogWrite(lay, s, i, b)
    case End(i) => DoEnd(s, i)
    case CopyToLog => DoCopyToLog(lay, s)
    case WriteHead => DoWriteHead(lay, s)
    case Install => DoInstall(lay, s)
    case ClearHead => DoClearHead(lay, s)
    case Finish => DoFinish(s)
    case Crash(t) => DoCrash(s, t)
    case ReadHead => DoReadHead(lay, s)
    case RecoverOne => DoRecoverOne(lay, s)
    case RecoverClear => DoRecoverClear(lay, s)
  }

  /** A machine that is about to boot from `image`. */
  ghost function Init(lay: Layout, image: DiskImage, t: Tid): State
    requires Recoverable(lay, image)
  {
    State(Core(image, [], 0, false, t, Boot, [], 0, Recover(lay, image), [], [], [], {}), map[])
  }

  ghost predicate Run(lay: Layout, s: State, acts: seq<Action>, s': State)
    decreases |acts|
  {
    if acts == [] then s == s'
    else Enabled(lay, s, acts[0]) && Run(lay, Next(lay, s, acts[0]), acts[1..], s')
  }
}
