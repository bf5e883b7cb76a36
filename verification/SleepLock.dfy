/** Sleep-locks over sleep and wakeup (kernel/sleeplock.c, kernel/proc.c:476-639), one
    step per lock operation or memory access. Spin-locks are owner fields. Any number of
    processes and sleep-locks; processes may also be preempted and killed. */
module SleepLock {

  type Pid = nat
  type Lid = nat

  datatype Owner = Free | Held(p: Pid)
  datatype RunState = Running | Runnable | Sleeping
  datatype Chan = NoChan | On(l: Lid)

  /** Where a process is. Comments say which spin-locks it holds there. */
  datatype PC =
    | Run               // none: user code or kernel code outside these calls
    | AcqWait(l: Lid)   // none: about to take l's spin-lock in acquiresleep
    | AcqTest(l: Lid)   // l: about to test `locked`
    | SleepLk(l: Lid)   // l: sleep(), about to take its own p->lock
    | SleepRel(l: Lid)  // l, p->lock: about to release l
    | SleepChan(l: Lid) // p->lock: about to set p->chan
    | SleepMark(l: Lid) // p->lock: about to set p->state
    | SleepOff(l: Lid)  // p->lock: about to switch away in sched()
    | Parked(l: Lid)    // none: off the CPU
    | Woken(l: Lid)     // p->lock: rescheduled, about to clear p->chan
    | SleepBack(l: Lid) // p->lock: about to release it
    | AcqDone(l: Lid)   // l: `locked` is set, about to release l
    | RelWait(l: Lid)   // none: about to take l in releasesleep
    | RelClear(l: Lid)  // l: about to clear `locked`
    | Wake(l: Lid, i: nat)   // l: wakeup's scan is at process i
    | WakeAt(l: Lid, i: nat) // l, process i's p->lock
    | RelDone(l: Lid)   // l: about to release it
    | KillAt(q: Pid)    // q's p->lock: in kill()
    | YieldMark         // p->lock: yield(), about to give up the CPU
    | YieldOff          // none: off the CPU
    | YieldBack         // p->lock: about to release it

  /** lk is p->lock; `held` lists the sleep-locks p has acquired and not yet released. */
  datatype Proc = Proc(st: RunState, chan: Chan, lk: Owner, pc: PC, held: set<Lid>, killed: bool)
  datatype Lock = Lock(locked: bool, pid: Pid, spin: Owner)
  datatype State = State(procs: seq<Proc>, locks: seq<Lock>)

  datatype Action =
    | Acquire(p: Pid, l: Lid)
    | Release(p: Pid, l: Lid)
    | Kill(p: Pid, q: Pid)
    | Yield(p: Pid)
    | Go(p: Pid)

  // ---- Steps ----

  function SetPc(s: State, p: Pid, pc: PC): State
    requires p < |s.procs|
  {
    s.(procs := s.procs[p := s.procs[p].(pc := pc)])
  }

  function SetLk(s: State, q: Pid, lk: Owner): State
    requires q < |s.procs|
  {
    s.(procs := s.procs[q := s.procs[q].(lk := lk)])
  }

  function SetSpin(s: State, l: Lid, o: Owner): State
    requires l < |s.locks|
  {
    s.(locks := s.locks[l := s.locks[l].(spin := o)])
  }

  predicate Names(s: State, pc: PC) {
    match pc
    case Run => true
    case KillAt(q) => q < |s.procs|
    case YieldMark => true
    case YieldOff => true
    case YieldBack => true
    case WakeAt(l, i) => l < |s.locks| && i < |s.procs|
    case _ => pc.l < |s.locks|
  }

  /** Process p can take its next step: a spin-lock it needs is free, a process that is
      off the CPU is runnable and its p->lock is free. */
  predicate CanGo(s: State, p: Pid) {
    && p < |s.procs| && Names(s, s.procs[p].pc)
    && match s.procs[p].pc
       case Run => false
       case AcqWait(l) => s.locks[l].spin == Free
       case SleepLk(l) => s.procs[p].lk == Free
       case Parked(l) => s.procs[p].lk == Free && s.procs[p].st == Runnable
       case RelWait(l) => s.locks[l].spin == Free
       case Wake(l, i) => i < |s.procs| && i != p ==> s.procs[i].lk == Free
       case YieldOff => s.procs[p].lk == Free && s.procs[p].st == Runnable
       case _ => true
  }

  function Advance(s: State, p: Pid): State
    requires CanGo(s, p)
  {
    var pr := s.procs[p];
    match pr.pc
    case Run => s
    case AcqWait(l) => SetPc(SetSpin(s, l, Held(p)), p, AcqTest(l))
    case AcqTest(l) =>
      if s.locks[l].locked then SetPc(s, p, SleepLk(l))
      else SetPc(s.(locks := s.locks[l := s.locks[l].(locked := true, pid := p)]), p, AcqDone(l))
    case SleepLk(l) => SetPc(SetLk(s, p, Held(p)), p, SleepRel(l))
    case SleepRel(l) => SetPc(SetSpin(s, l, Free), p, SleepChan(l))
    case SleepChan(l) => s.(procs := s.procs[p := pr.(chan := On(l), pc := SleepMark(l))])
    case SleepMark(l) => s.(procs := s.procs[p := pr.(st := Sleeping, pc := SleepOff(l))])
    case SleepOff(l) => SetPc(SetLk(s, p, Free), p, Parked(l))
    case Parked(l) => s.(procs := s.procs[p := pr.(st := Running, lk := Held(p), pc := Woken(l))])
    case Woken(l) => s.(procs := s.procs[p := pr.(chan := NoChan, pc := SleepBack(l))])
    case SleepBack(l) => SetPc(SetLk(s, p, Free), p, AcqWait(l))
    case AcqDone(l) => s.(locks := s.locks[l := s.locks[l].(spin := Free)],
                          procs := s.procs[p := pr.(held := pr.held + {l}, pc := Run)])
    case RelWait(l) => SetPc(SetSpin(s, l, Held(p)), p, RelClear(l))
    case RelClear(l) => s.(locks := s.locks[l := s.locks[l].(locked := false, pid := 0)],
                           procs := s.procs[p := pr.(held := pr.held - {l}, pc := Wake(l, 0))])
    case Wake(l, i) =>
      if i >= |s.procs| then SetPc(s, p, RelDone(l))
      else if i == p then SetPc(s, p, Wake(l, i + 1))
      else SetPc(SetLk(s, i, Held(p)), p, WakeAt(l, i))
    case WakeAt(l, i) =>
      var q := s.procs[i];
      var q' := q.(lk := Free, st := if q.st == Sleeping && q.chan == On(l) then Runnable else q.st);
      SetPc(s.(procs := s.procs[i := q']), p, Wake(l, i + 1))
    case RelDone(l) => SetPc(SetSpin(s, l, Free), p, Run)
    case KillAt(q) =>
      var v := s.procs[q];
      var v' := v.(lk := Free, killed := true, st := if v.st == Sleeping then Runnable else v.st);
      SetPc(s.(procs := s.procs[q := v']), p, Run)
    case YieldMark => s.(procs := s.procs[p := pr.(st := Runnable, lk := Free, pc := YieldOff)])
    case YieldOff => s.(procs := s.procs[p := pr.(st := Running, lk := Held(p), pc := YieldBack)])
    case YieldBack => SetPc(SetLk(s, p, Free), p, Run)
  }

  predicate Enabled(s: State, a: Action) {
    match a
    case Acquire(p, l) => p < |s.procs| && l < |s.locks| && s.procs[p].pc == Run
    case Release(p, l) => p < |s.procs| && l < |s.locks| && s.procs[p].pc == Run && l in s.procs[p].held
    case Kill(p, q) => p < |s.procs| && q < |s.procs| && s.procs[p].pc == Run && s.procs[q].lk == Free
    case Yield(p) => p < |s.procs| && s.procs[p].pc == Run && s.procs[p].lk == Free
    case Go(p) => CanGo(s, p)
  }

  function Next(s: State, a: Action): State
    requires Enabled(s, a)
  {
    match a
    case Acquire(p, l) => SetPc(s, p, AcqWait(l))
    case Release(p, l) => SetPc(s, p, RelWait(l))
    case Kill(p, q) => SetPc(SetLk(s, q, Held(p)), p, KillAt(q))
    case Yield(p) => SetPc(SetLk(s, p, Held(p)), p, YieldMark)
    case Go(p) => Advance(s, p)
  }

  function Init(procs: nat, locks: nat): State {
    State(seq(procs, i => Proc(Running, NoChan, Free, Run, {}, false)), seq(locks, i => Lock(false, 0, Free)))
  }

  ghost predicate Reachable(s: State, procs: nat, locks: nat, acts: seq<Action>)
    decreases |acts|
  {
    if acts == [] then s == Init(procs, locks)
    else
      var n := |acts| - 1;
      exists r :: Reachable(r, procs, locks, acts[..n]) && Enabled(r, acts[n]) && s == Next(r, acts[n])
  }

  // ---- Invariants ----

  predicate HoldsSpin(pc: PC, l: Lid) {
    match pc
    case AcqTest(k) => k == l
    case SleepLk(k) => k == l
    case SleepRel(k) => k == l
    case AcqDone(k) => k == l
    case RelClear(k) => k == l
    case Wake(k, _) => k == l
    case WakeAt(k, _) => k == l
    case RelDone(k) => k == l
    case _ => false
  }

  /** A process at `pc`, which is process p, holds process q's p->lock. */
  predicate HoldsProcLock(pc: PC, p: Pid, q: Pid) {
    match pc
    case SleepRel(_) => p == q
    case SleepChan(_) => p == q
    case SleepMark(_) => p == q
    case SleepOff(_) => p == q
    case Woken(_) => p == q
    case SleepBack(_) => p == q
    case WakeAt(_, i) => i == q
    case KillAt(k) => k == q
    case YieldMark => p == q
    case YieldBack => p == q
    case _ => false
  }

  /** Spin-locks and p->locks are held exactly where the program counters say. */
  ghost predicate LocksMatch(s: State) {
    && (forall p :: 0 <= p < |s.procs| ==> Names(s, s.procs[p].pc))
    && (forall p, l :: 0 <= p < |s.procs| && 0 <= l < |s.locks| ==>
          (s.locks[l].spin == Held(p) <==> HoldsSpin(s.procs[p].pc, l)))
    && (forall l :: 0 <= l < |s.locks| && s.locks[l].spin.Held? ==> s.locks[l].spin.p < |s.procs|)
    && (forall p, q :: 0 <= p < |s.procs| && 0 <= q < |s.procs| ==>
          (s.procs[q].lk == Held(p) <==> HoldsProcLock(s.procs[p].pc, p, q)))
    && (forall q :: 0 <= q < |s.procs| && s.procs[q].lk.Held? ==> s.procs[q].lk.p < |s.procs|)
  }

  /** Only a process in sleep() is Sleeping, and its channel is its lock. */
  predicate Marked(pr: Proc) {
    && (pr.st == Sleeping ==> pr.pc.SleepOff? || pr.pc.Parked?)
    && (pr.pc.SleepOff? ==> pr.st == Sleeping)
    && (pr.pc.SleepMark? || pr.pc.SleepOff? || pr.pc.Parked? || pr.pc.Woken? ==> pr.chan == On(pr.pc.l))
  }

  ghost predicate SleepersMarked(s: State) {
    forall p :: 0 <= p < |s.procs| ==> Marked(s.procs[p])
  }

  /** A wakeup for l is under way and has not reached process p yet. */
  ghost predicate WakeComing(s: State, l: Lid, p: Pid)
    requires l < |s.locks|
  {
    var o := s.locks[l].spin;
    && o.Held? && o.p < |s.procs| && o.p != p
    && var pc := s.procs[o.p].pc;
       (pc.Wake? || pc.WakeAt?) && pc.l == l && pc.i <= p
  }

  /** p has seen l locked and has not been woken since. */
  predicate Waiting(pr: Proc) {
    pr.pc.SleepChan? || pr.pc.SleepMark? || pr.pc.SleepOff? || (pr.pc.Parked? && pr.st == Sleeping)
  }

  /** No lost wakeup, for one process: if it waits for l then l is taken, or a wakeup is
      on its way to it. */
  ghost predicate Kept(s: State, q: Pid) {
    q < |s.procs| ==>
      var pr := s.procs[q];
      && ((pr.pc.SleepLk? || pr.pc.SleepRel?) && pr.pc.l < |s.locks| ==> s.locks[pr.pc.l].locked)
      && (Waiting(pr) && pr.pc.l < |s.locks| ==> s.locks[pr.pc.l].locked || WakeComing(s, pr.pc.l, q))
  }

  ghost predicate WakeupsKept(s: State) {
    forall q :: Kept(s, q)
  }

  predicate Owns(pr: Proc, l: Lid) {
    l in pr.held || pr.pc == AcqDone(l)
  }

  /** `locked` and `pid` name the one process that has the sleep-lock. */
  ghost predicate OneOwner(s: State) {
    && (forall p, l :: 0 <= p < |s.procs| && 0 <= l < |s.locks| && Owns(s.procs[p], l) ==>
       s.locks[l].locked && s.locks[l].pid == p)
    && (forall l :: 0 <= l < |s.locks| && s.locks[l].locked ==>
       s.locks[l].pid < |s.procs| && Owns(s.procs[s.locks[l].pid], l))
    && (forall p :: 0 <= p < |s.procs| && (s.procs[p].pc.RelWait? || s.procs[p].pc.RelClear?) ==>
       s.procs[p].pc.l in s.procs[p].held)
    && (forall p :: 0 <= p < |s.procs| && s.procs[p].pc.AcqDone? ==> s.procs[p].pc.l !in s.procs[p].held)
  }

  ghost predicate Inv(s: State) {
    LocksMatch(s) && SleepersMarked(s) && WakeupsKept(s) && OneOwner(s)
  }

  // ---- Locks ----

  /** Only process p moves. */
  ghost predicate Moves(s: State, s': State, p: Pid) {
    && |s'.procs| == |s.procs| && |s'.locks| == |s.locks| && p < |s.procs|
    && (forall q :: 0 <= q < |s.procs| && q != p ==> s'.procs[q].pc == s.procs[q].pc)
    && Names(s', s'.procs[p].pc)
  }

  ghost predicate SameSpins(s: State, s': State)
    requires |s'.locks| == |s.locks|
  {
    forall l :: 0 <= l < |s.locks| ==> s'.locks[l].spin == s.locks[l].spin
  }

  ghost predicate SameProcLocks(s: State, s': State)
    requires |s'.procs| == |s.procs|
  {
    forall q :: 0 <= q < |s.procs| ==> s'.procs[q].lk == s.procs[q].lk
  }

  lemma MoveOnly(s: State, s': State, p: Pid)
    requires LocksMatch(s) && Moves(s, s', p) && SameSpins(s, s') && SameProcLocks(s, s')
    requires forall l :: HoldsSpin(s'.procs[p].pc, l) == HoldsSpin(s.procs[p].pc, l)
    requires forall q :: HoldsProcLock(s'.procs[p].pc, p, q) == HoldsProcLock(s.procs[p].pc, p, q)
    ensures LocksMatch(s')
  {
  }

  lemma TakeSpin(s: State, s': State, p: Pid, l: Lid)
    requires LocksMatch(s) && Moves(s, s', p) && l < |s.locks| && SameProcLocks(s, s')
    requires s.locks[l].spin == Free && s'.locks[l].spin == Held(p)
    requires forall k :: 0 <= k < |s.locks| && k != l ==> s'.locks[k].spin == s.locks[k].spin
    requires forall k :: HoldsSpin(s'.procs[p].pc, k) <==> HoldsSpin(s.procs[p].pc, k) || k == l
    requires forall q :: HoldsProcLock(s'.procs[p].pc, p, q) == HoldsProcLock(s.procs[p].pc, p, q)
    ensures LocksMatch(s')
  {
  }

  lemma DropSpin(s: State, s': State, p: Pid, l: Lid)
    requires LocksMatch(s) && Moves(s, s', p) && l < |s.locks| && SameProcLocks(s, s')
    requires HoldsSpin(s.procs[p].pc, l) && s'.locks[l].spin == Free
    requires forall k :: 0 <= k < |s.locks| && k != l ==> s'.locks[k].spin == s.locks[k].spin
    requires forall k :: HoldsSpin(s'.procs[p].pc, k) <==> HoldsSpin(s.procs[p].pc, k) && k != l
    requires forall q :: HoldsProcLock(s'.procs[p].pc, p, q) == HoldsProcLock(s.procs[p].pc, p, q)
    ensures LocksMatch(s')
  {
    assert s.locks[l].spin == Held(p);
  }

  lemma TakeProcLock(s: State, s': State, p: Pid, q: Pid)
    requires LocksMatch(s) && Moves(s, s', p) && q < |s.procs| && SameSpins(s, s')
    requires s.procs[q].lk == Free && s'.procs[q].lk == Held(p)
    requires forall k :: 0 <= k < |s.procs| && k != q ==> s'.procs[k].lk == s.procs[k].lk
    requires forall l :: HoldsSpin(s'.procs[p].pc, l) == HoldsSpin(s.procs[p].pc, l)
    requires forall k :: HoldsProcLock(s'.procs[p].pc, p, k) <==> HoldsProcLock(s.procs[p].pc, p, k) || k == q
    ensures LocksMatch(s')
  {
  }

  lemma DropProcLock(s: State, s': State, p: Pid, q: Pid)
    requires LocksMatch(s) && Moves(s, s', p) && q < |s.procs| && SameSpins(s, s')
    requires HoldsProcLock(s.procs[p].pc, p, q) && s'.procs[q].lk == Free
    requires forall k :: 0 <= k < |s.procs| && k != q ==> s'.procs[k].lk == s.procs[k].lk
    requires forall l :: HoldsSpin(s'.procs[p].pc, l) == HoldsSpin(s.procs[p].pc, l)
    requires forall k :: HoldsProcLock(s'.procs[p].pc, p, k) <==> HoldsProcLock(s.procs[p].pc, p, k) && k != q
    ensures LocksMatch(s')
  {
    assert s.procs[q].lk == Held(p);
  }

  predicate SpinStep(pc: PC) {
    pc.AcqWait? || pc.RelWait? || pc.SleepRel? || pc.AcqDone? || pc.RelDone?
  }

  predicate ProcTakeStep(pc: PC) {
    pc.SleepLk? || pc.Parked? || pc.YieldOff?
  }

  predicate ProcDropStep(pc: PC) {
    pc.KillAt? || pc.SleepOff? || pc.SleepBack? || pc.YieldMark? || pc.YieldBack?
  }

  lemma SpinStepMatches(s: State, p: Pid)
    requires LocksMatch(s) && CanGo(s, p) && SpinStep(s.procs[p].pc)
    ensures LocksMatch(Advance(s, p))
  {
    hide LocksMatch;
    var s', pc := Advance(s, p), s.procs[p].pc;
    if pc.AcqWait? || pc.RelWait? {
      TakeSpin(s, s', p, pc.l);
    } else {
      DropSpin(s, s', p, pc.l);
    }
  }

  lemma ProcTakeMatches(s: State, p: Pid)
    requires LocksMatch(s) && CanGo(s, p) && ProcTakeStep(s.procs[p].pc)
    ensures LocksMatch(Advance(s, p))
  {
    hide LocksMatch;
    TakeProcLock(s, Advance(s, p), p, p);
  }

  lemma ProcDropMatches(s: State, p: Pid)
    requires LocksMatch(s) && CanGo(s, p) && ProcDropStep(s.procs[p].pc)
    ensures LocksMatch(Advance(s, p))
  {
    hide LocksMatch;
    var pc := s.procs[p].pc;
    DropProcLock(s, Advance(s, p), p, if pc.KillAt? then pc.q else p);
  }

  lemma WakeMatches(s: State, p: Pid)
    requires LocksMatch(s) && CanGo(s, p) && (s.procs[p].pc.Wake? || s.procs[p].pc.WakeAt?)
    ensures LocksMatch(Advance(s, p))
  {
    hide LocksMatch;
    var s', pc := Advance(s, p), s.procs[p].pc;
    if pc.WakeAt? {
      DropProcLock(s, s', p, pc.i);
    } else if pc.i < |s.procs| && pc.i != p {
      TakeProcLock(s, s', p, pc.i);
    } else {
      MoveOnly(s, s', p);
    }
  }

  lemma QuietMatches(s: State, p: Pid)
    requires LocksMatch(s) && CanGo(s, p)
    requires var pc := s.procs[p].pc;
             !SpinStep(pc) && !ProcTakeStep(pc) && !ProcDropStep(pc) && !pc.Wake? && !pc.WakeAt?
    ensures LocksMatch(Advance(s, p))
  {
    hide LocksMatch;
    MoveOnly(s, Advance(s, p), p);
  }

  lemma LocksMatchGo(s: State, p: Pid)
    requires LocksMatch(s) && CanGo(s, p)
    ensures LocksMatch(Advance(s, p))
  {
    hide LocksMatch, Advance;
    var pc := s.procs[p].pc;
    if SpinStep(pc) {
      SpinStepMatches(s, p);
    } else if ProcTakeStep(pc) {
      ProcTakeMatches(s, p);
    } else if ProcDropStep(pc) {
      ProcDropMatches(s, p);
    } else if pc.Wake? || pc.WakeAt? {
      WakeMatches(s, p);
    } else {
      QuietMatches(s, p);
    }
  }

  lemma LocksMatchStep(s: State, a: Action)
    requires LocksMatch(s) && Enabled(s, a)
    ensures LocksMatch(Next(s, a))
  {
    hide LocksMatch, Advance;
    var s' := Next(s, a);
    match a {
      case Acquire(p, l) => MoveOnly(s, s', p);
      case Release(p, l) => MoveOnly(s, s', p);
      case Kill(p, q) => TakeProcLock(s, s', p, q);
      case Yield(p) => TakeProcLock(s, s', p, p);
      case Go(p) => LocksMatchGo(s, p);
    }
  }

  // ---- Sleepers ----

  /** Whoever holds q's p->lock from outside finds q not about to switch away. */
  lemma LockedOut(s: State, p: Pid, q: Pid)
    requires LocksMatch(s) && p < |s.procs| && q < |s.procs| && HoldsProcLock(s.procs[p].pc, p, q)
    requires s.procs[p].pc.WakeAt? || s.procs[p].pc.KillAt?
    ensures !s.procs[q].pc.SleepChan? && !s.procs[q].pc.SleepMark? && !s.procs[q].pc.SleepOff?
  {
    assert s.procs[q].lk == Held(p);
    assert s.procs[q].lk == Held(q) <==> HoldsProcLock(s.procs[q].pc, q, q);
  }

  lemma SleepersMarkedStep(s: State, a: Action)
    requires LocksMatch(s) && SleepersMarked(s) && Enabled(s, a)
    ensures SleepersMarked(Next(s, a))
  {
    hide LocksMatch, Advance;
    if a.Go? {
      MarkedGo(s, a.p, a.p);
    }
    forall q | 0 <= q < |Next(s, a).procs| ensures Marked(Next(s, a).procs[q]) {
      if a.Go? {
        MarkedGo(s, a.p, q);
      } else {
        assert Marked(s.procs[q]);
      }
    }
  }

  lemma MarkedGo(s: State, p: Pid, q: Pid)
    requires LocksMatch(s) && CanGo(s, p) && q < |s.procs| && Marked(s.procs[q]) && Marked(s.procs[p])
    ensures q < |Advance(s, p).procs| == |s.procs| && Marked(Advance(s, p).procs[q])
  {
    if s.procs[p].pc.WakeAt? {
      LockedOut(s, p, s.procs[p].pc.i);
    } else if s.procs[p].pc.KillAt? {
      LockedOut(s, p, s.procs[p].pc.q);
    }
    hide LocksMatch;
  }

  // ---- Wakeups ----

  /** A step that leaves `locked`, the spin-locks' owners and every wakeup alone, and
      makes nobody wait anew. */
  lemma KeptUndisturbed(s: State, s': State, p: Pid, q: Pid)
    requires Kept(s, q) && Moves(s, s', p) && s'.locks == s.locks
    requires !(s.procs[p].pc.Wake? || s.procs[p].pc.WakeAt?)
    requires q < |s.procs| ==>
               var pr, pr' := s.procs[q], s'.procs[q];
               && (pr'.pc.SleepLk? || pr'.pc.SleepRel? ==> (pr.pc.SleepLk? || pr.pc.SleepRel?) && pr.pc.l == pr'.pc.l)
               && (Waiting(pr') ==> Waiting(pr) && pr.pc.l == pr'.pc.l)
    ensures Kept(s', q)
  {
  }

  /** p takes or drops the spin-lock of l without clearing or scanning for it. */
  lemma KeptSpin(s: State, s': State, p: Pid, l: Lid, q: Pid)
    requires LocksMatch(s) && Kept(s, q) && Moves(s, s', p) && l < |s.locks|
    requires forall k :: 0 <= k < |s.locks| && k != l ==> s'.locks[k] == s.locks[k]
    requires s.locks[l].locked ==> s'.locks[l].locked
    requires s.locks[l].spin == Free || (s.locks[l].spin == Held(p) && !(s.procs[p].pc.Wake? || s.procs[p].pc.WakeAt?))
    requires !(s'.procs[p].pc.Wake? || s'.procs[p].pc.WakeAt?)
    requires !(s.procs[p].pc.Wake? || s.procs[p].pc.WakeAt?)
    requires q < |s.procs| && q != p ==> s'.procs[q] == s.procs[q]
    requires q == p ==> !Waiting(s'.procs[q]) || (s.procs[q].pc == SleepRel(l) && s'.procs[q].pc.l == l)
    requires q == p ==> !(s'.procs[q].pc.SleepLk? || s'.procs[q].pc.SleepRel?)
    ensures Kept(s', q)
  {
  }

  lemma KeptGoSpin(s: State, p: Pid, q: Pid)
    requires LocksMatch(s) && CanGo(s, p) && SpinStep(s.procs[p].pc) && Kept(s, q)
    ensures Kept(Advance(s, p), q)
  {
    var l := s.procs[p].pc.l;
    assert s.locks[l].spin == Held(p) <==> HoldsSpin(s.procs[p].pc, l);
    hide LocksMatch, Kept;
    var s' := Advance(s, p);
    KeptSpin(s, s', p, l, q);
  }

  /** acquiresleep's test: either the lock is taken, or p takes it. */
  lemma KeptGoTest(s: State, p: Pid, q: Pid)
    requires LocksMatch(s) && CanGo(s, p) && s.procs[p].pc.AcqTest? && Kept(s, q)
    ensures Kept(Advance(s, p), q)
  {
    var l := s.procs[p].pc.l;
    assert s.locks[l].spin == Held(p) <==> HoldsSpin(s.procs[p].pc, l);
    hide LocksMatch;
  }

  /** releasesleep clears `locked` with the scan at process 0, so every waiter of l is
      still ahead of it. */
  lemma KeptGoClear(s: State, p: Pid, q: Pid)
    requires LocksMatch(s) && CanGo(s, p) && s.procs[p].pc.RelClear? && Kept(s, q)
    ensures Kept(Advance(s, p), q)
  {
    var l := s.procs[p].pc.l;
    assert s.locks[l].spin == Held(p) <==> HoldsSpin(s.procs[p].pc, l);
    assert q < |s.procs| ==> (s.locks[l].spin == Held(q) <==> HoldsSpin(s.procs[q].pc, l));
    hide LocksMatch;
  }

  /** wakeup's scan passes process i only with i awake or not waiting for l. */
  lemma KeptGoWake(s: State, p: Pid, q: Pid)
    requires LocksMatch(s) && SleepersMarked(s) && CanGo(s, p) && (s.procs[p].pc.Wake? || s.procs[p].pc.WakeAt?)
    requires Kept(s, q)
    ensures Kept(Advance(s, p), q)
  {
    hide LocksMatch;
    var i := s.procs[p].pc.i;
    HasSpin(s, p);
    if s.procs[p].pc.WakeAt? {
      LockedOut(s, p, i);
    }
  }

  lemma HasSpin(s: State, p: Pid)
    requires LocksMatch(s) && CanGo(s, p) && (s.procs[p].pc.Wake? || s.procs[p].pc.WakeAt?)
    ensures s.procs[p].pc.l < |s.locks| && s.locks[s.procs[p].pc.l].spin == Held(p)
    ensures HoldsSpin(s.procs[p].pc, s.procs[p].pc.l)
  {
  }

  lemma KeptGoOther(s: State, p: Pid, q: Pid)
    requires LocksMatch(s) && SleepersMarked(s) && CanGo(s, p) && Kept(s, q)
    requires var pc := s.procs[p].pc;
             !SpinStep(pc) && !pc.AcqTest? && !pc.RelClear? && !pc.Wake? && !pc.WakeAt?
    ensures Kept(Advance(s, p), q)
  {
    hide LocksMatch, Kept;
    KeptUndisturbed(s, Advance(s, p), p, q);
  }

  lemma WakeupsKeptStep(s: State, a: Action)
    requires LocksMatch(s) && SleepersMarked(s) && WakeupsKept(s) && Enabled(s, a)
    ensures WakeupsKept(Next(s, a))
  {
    hide LocksMatch, SleepersMarked, Kept, Advance, WakeComing;
    forall q: Pid ensures Kept(Next(s, a), q) {
      if a.Go? {
        var pc := s.procs[a.p].pc;
        if SpinStep(pc) {
          KeptGoSpin(s, a.p, q);
        } else if pc.AcqTest? {
          KeptGoTest(s, a.p, q);
        } else if pc.RelClear? {
          KeptGoClear(s, a.p, q);
        } else if pc.Wake? || pc.WakeAt? {
          KeptGoWake(s, a.p, q);
        } else {
          KeptGoOther(s, a.p, q);
        }
      } else {
        KeptUndisturbed(s, Next(s, a), a.p, q);
      }
    }
  }

  // ---- Owners ----

  /** A step after which the same processes own the same locks. */
  lemma OwnersUnchanged(s: State, s': State, p: Pid)
    requires OneOwner(s) && Moves(s, s', p)
    requires forall l :: 0 <= l < |s.locks| ==>
             s'.locks[l].locked == s.locks[l].locked && s'.locks[l].pid == s.locks[l].pid
    requires forall q :: 0 <= q < |s.procs| ==> s'.procs[q].held == s.procs[q].held
    requires !s.procs[p].pc.AcqDone? && !s'.procs[p].pc.AcqDone?
    requires s'.procs[p].pc.RelWait? || s'.procs[p].pc.RelClear? ==> s'.procs[p].pc.l in s.procs[p].held
    ensures OneOwner(s')
  {
    forall q, l | 0 <= q < |s.procs| && 0 <= l < |s.locks| ensures Owns(s'.procs[q], l) == Owns(s.procs[q], l) {
    }
  }

  /** p finds l free and takes it. */
  lemma OwnerTakes(s: State, p: Pid, l: Lid)
    requires OneOwner(s) && p < |s.procs| && l < |s.locks| && s.procs[p].pc == AcqTest(l) && !s.locks[l].locked
    ensures OneOwner(SetPc(s.(locks := s.locks[l := s.locks[l].(locked := true, pid := p)]), p, AcqDone(l)))
  {
    var s' := SetPc(s.(locks := s.locks[l := s.locks[l].(locked := true, pid := p)]), p, AcqDone(l));
    forall q, k | 0 <= q < |s.procs| && 0 <= k < |s.locks|
      ensures Owns(s'.procs[q], k) <==> Owns(s.procs[q], k) || (q == p && k == l)
      ensures k == l ==> !Owns(s.procs[q], k)
    {
    }
  }

  lemma OwnerSettles(s: State, p: Pid)
    requires OneOwner(s) && CanGo(s, p) && s.procs[p].pc.AcqDone?
    ensures OneOwner(Advance(s, p))
  {
    var s' := Advance(s, p);
    forall q, l | 0 <= q < |s.procs| && 0 <= l < |s.locks| ensures Owns(s'.procs[q], l) == Owns(s.procs[q], l) {
    }
  }

  lemma OwnerLeaves(s: State, p: Pid)
    requires OneOwner(s) && CanGo(s, p) && s.procs[p].pc.RelClear?
    ensures OneOwner(Advance(s, p))
  {
    var s', l := Advance(s, p), s.procs[p].pc.l;
    assert Owns(s.procs[p], l);
    forall q, k | 0 <= q < |s.procs| && 0 <= k < |s.locks|
      ensures Owns(s'.procs[q], k) <==> Owns(s.procs[q], k) && k != l
    {
    }
  }

  lemma OneOwnerGo(s: State, p: Pid)
    requires OneOwner(s) && CanGo(s, p)
    ensures OneOwner(Advance(s, p))
  {
    var pc := s.procs[p].pc;
    if pc.AcqTest? && !s.locks[pc.l].locked {
      hide OneOwner;
      OwnerTakes(s, p, pc.l);
    } else if pc.AcqDone? {
      hide OneOwner;
      OwnerSettles(s, p);
    } else if pc.RelClear? {
      hide OneOwner;
      OwnerLeaves(s, p);
    } else {
      hide OneOwner, Advance;
      OwnerKeeps(s, p);
    }
  }

  lemma OwnerKeeps(s: State, p: Pid)
    requires OneOwner(s) && CanGo(s, p)
    requires var pc := s.procs[p].pc; !(pc.AcqTest? && !s.locks[pc.l].locked) && !pc.AcqDone? && !pc.RelClear?
    ensures OneOwner(Advance(s, p))
  {
    hide OneOwner, Advance, Moves;
    RelHolds(s, p);
    if WakingPc(s.procs[p].pc) {
      AdvanceKeepsA(s, p);
    } else {
      AdvanceKeepsB(s, p);
    }
    OwnersUnchanged(s, Advance(s, p), p);
  }

  /** What most steps leave alone: who has which lock. */
  ghost predicate KeepsOwners(s: State, s': State, p: Pid)
    requires p < |s.procs|
  {
    && Moves(s, s', p)
    && (forall l :: 0 <= l < |s.locks| ==> s'.locks[l].locked == s.locks[l].locked && s'.locks[l].pid == s.locks[l].pid)
    && (forall q :: 0 <= q < |s.procs| ==> s'.procs[q].held == s.procs[q].held)
    && !s'.procs[p].pc.AcqDone?
    && (s'.procs[p].pc.RelWait? || s'.procs[p].pc.RelClear? ==> s'.procs[p].pc.l in s.procs[p].held)
  }

  predicate WakingPc(pc: PC) {
    pc.RelWait? || pc.Wake? || pc.WakeAt? || pc.RelDone? || pc.KillAt?
  }

  lemma AdvanceKeepsA(s: State, p: Pid)
    requires CanGo(s, p) && WakingPc(s.procs[p].pc) && (s.procs[p].pc.RelWait? ==> s.procs[p].pc.l in s.procs[p].held)
    ensures KeepsOwners(s, Advance(s, p), p)
  {
  }

  lemma AdvanceKeepsB(s: State, p: Pid)
    requires CanGo(s, p) && !WakingPc(s.procs[p].pc)
    requires var pc := s.procs[p].pc; !(pc.AcqTest? && !s.locks[pc.l].locked) && !pc.AcqDone? && !pc.RelClear?
    ensures KeepsOwners(s, Advance(s, p), p)
  {
  }

  lemma RelHolds(s: State, p: Pid)
    requires OneOwner(s) && CanGo(s, p)
    ensures s.procs[p].pc.RelWait? ==> s.procs[p].pc.l in s.procs[p].held
  {
    hide Advance;
  }

  lemma OneOwnerStep(s: State, a: Action)
    requires OneOwner(s) && Enabled(s, a)
    ensures OneOwner(Next(s, a))
  {
    if a.Go? {
      OneOwnerGo(s, a.p);
    } else {
      hide OneOwner;
      OwnersUnchanged(s, Next(s, a), a.p);
    }
  }

  // ---- Runs ----

  lemma StepInv(s: State, a: Action)
    requires Inv(s) && Enabled(s, a)
    ensures Inv(Next(s, a))
  {
    hide LocksMatch, SleepersMarked, WakeupsKept, OneOwner, Next, Enabled;
    LocksMatchStep(s, a);
    SleepersMarkedStep(s, a);
    WakeupsKeptStep(s, a);
    OneOwnerStep(s, a);
  }

  lemma {:induction false} ReachableInv(s: State, procs: nat, locks: nat, acts: seq<Action>)
    requires Reachable(s, procs, locks, acts)
    ensures Inv(s) && |s.procs| == procs && |s.locks| == locks
    decreases |acts|
  {
    if acts != [] {
      hide Inv;
      var n := |acts| - 1;
      var r :| Reachable(r, procs, locks, acts[..n]) && Enabled(r, acts[n]) && s == Next(r, acts[n]);
      ReachableInv(r, procs, locks, acts[..n]);
      StepInv(r, acts[n]);
      SizesFixed(r, acts[n]);
    }
  }

  lemma SizesFixed(s: State, a: Action)
    requires Enabled(s, a)
    ensures |Next(s, a).procs| == |s.procs| && |Next(s, a).locks| == |s.locks|
  {
  }

  /** No lost wakeup: whenever a sleep-lock's spin-lock is free, a process sleeping on it
      sleeps for a reason: the lock is taken. */
  lemma NoLostWakeup(s: State, procs: nat, locks: nat, acts: seq<Action>, p: Pid, l: Lid)
    requires Reachable(s, procs, locks, acts) && p < |s.procs| && l < |s.locks|
    requires s.locks[l].spin == Free && s.procs[p].st == Sleeping && s.procs[p].chan == On(l)
    ensures s.locks[l].locked
  {
    hide Reachable, LocksMatch, OneOwner;
    ReachableInv(s, procs, locks, acts);
    assert Marked(s.procs[p]) && Kept(s, p);
  }

  /** Mutual exclusion, and the owner is the process `pid` names. */
  lemma MutualExclusion(s: State, procs: nat, locks: nat, acts: seq<Action>, p: Pid, q: Pid, l: Lid)
    requires Reachable(s, procs, locks, acts) && p < |s.procs| && q < |s.procs| && l < |s.locks|
    requires Owns(s.procs[p], l)
    ensures s.locks[l].locked && s.locks[l].pid == p
    ensures Owns(s.procs[q], l) ==> q == p
  {
    hide Reachable, LocksMatch, SleepersMarked, WakeupsKept;
    ReachableInv(s, procs, locks, acts);
  }

  /** sched() is entered holding the process's own p->lock and no other spin-lock, so its
      "sched locks" and "sched p->lock" panics are unreachable from sleep. */
  lemma SchedLocks(s: State, procs: nat, locks: nat, acts: seq<Action>, p: Pid, q: Pid, l: Lid)
    requires Reachable(s, procs, locks, acts) && p < |s.procs| && q < |s.procs| && l < |s.locks|
    requires s.procs[p].pc.SleepOff? || s.procs[p].pc == YieldMark
    ensures s.procs[p].lk == Held(p) && s.locks[l].spin != Held(p) && (s.procs[q].lk == Held(p) ==> q == p)
  {
    hide Reachable, OneOwner, SleepersMarked, WakeupsKept;
    ReachableInv(s, procs, locks, acts);
    assert s.procs[p].lk == Held(p) <==> HoldsProcLock(s.procs[p].pc, p, p);
    assert s.procs[q].lk == Held(p) <==> HoldsProcLock(s.procs[p].pc, p, q);
    assert s.locks[l].spin == Held(p) <==> HoldsSpin(s.procs[p].pc, l);
  }
}
