/** Invariants of ExitWait, and what they say about parents, zombies and wait. */
module ExitWaitInv {
  import opened ExitWait

  // ---- Locks ----

  predicate HoldsWl(pc: PC) {
    || pc.ForkSet? || pc.ForkRel? || pc.Rep? || pc.RepWake? || pc.RepWakeAt? || pc.ExWake? || pc.ExWakeAt? || pc.ExLk?
    || pc.ExMark? || pc.ExRel? || pc.Scan? || pc.ScanAt? || pc.ScanFree? || pc.ScanRel? || pc.SlLk? || pc.SlRel?
  }

  /** A process at `pc`, which is process p, holds process q's lock. */
  predicate HoldsLk(pc: PC, p: Pid, q: Pid) {
    match pc
    case ForkInit(np) => np == q
    case ForkMark(np) => np == q
    case BornBack => p == q
    case RepWakeAt(_, j) => j == q
    case ExWakeAt(j) => j == q
    case ExMark => p == q
    case ExRel => p == q
    case ExOff => p == q
    case ScanAt(i) => i == q
    case ScanFree(i) => i == q
    case SlRel => p == q
    case SlChan => p == q
    case SlMark => p == q
    case SlOff => p == q
    case Woken => p == q
    case SlBack => p == q
    case KillAt(k) => k == q
    case _ => false
  }

  ghost predicate LocksMatch(s: State) {
    && (forall p :: 0 <= p < |s.procs| ==> Names(|s.procs|, s.procs[p].pc))
    && (forall p :: 0 <= p < |s.procs| ==> (s.wl == Held(p) <==> HoldsWl(s.procs[p].pc)))
    && (s.wl.Held? ==> s.wl.p < |s.procs|)
    && (forall p, q :: 0 <= p < |s.procs| && 0 <= q < |s.procs| ==>
       (s.procs[q].lk == Held(p) <==> HoldsLk(s.procs[p].pc, p, q)))
    && (forall q :: 0 <= q < |s.procs| && s.procs[q].lk.Held? ==> s.procs[q].lk.p < |s.procs|)
  }

  /** p moves; everyone else holds what it held. */
  ghost predicate Moves(s: State, s': State, p: Pid) {
    && |s'.procs| == |s.procs| && p < |s.procs|
    && (forall q :: 0 <= q < |s.procs| && q != p ==> SameGrip(s.procs[q].pc, s'.procs[q].pc, q))
    && (forall q :: 0 <= q < |s.procs| && q != p ==> Names(|s.procs|, s.procs[q].pc) ==>
       Names(|s.procs|, s'.procs[q].pc))
    && Names(|s.procs|, s'.procs[p].pc)
  }

  ghost predicate SameGrip(a: PC, b: PC, q: Pid) {
    HoldsWl(a) == HoldsWl(b) && forall r :: HoldsLk(a, q, r) == HoldsLk(b, q, r)
  }

  lemma MovesAlone(s: State, s': State, p: Pid)
    requires |s'.procs| == |s.procs| && p < |s.procs| && Names(|s.procs|, s'.procs[p].pc)
    requires forall q :: 0 <= q < |s.procs| && q != p ==> s'.procs[q].pc == s.procs[q].pc
    ensures Moves(s, s', p)
  {
    hide HoldsWl, HoldsLk, Names;
  }

  /** p moves and puts or takes away the context of c, which holds nothing either way. */
  lemma MovesWith(s: State, s': State, p: Pid, c: Pid)
    requires |s'.procs| == |s.procs| && p < |s.procs| && Names(|s.procs|, s'.procs[p].pc) && c < |s.procs| && c != p
    requires s.procs[c].pc.Off? || s.procs[c].pc.NewBorn? || s.procs[c].pc.Dead?
    requires s'.procs[c].pc.Off? || s'.procs[c].pc.NewBorn?
    requires forall q :: 0 <= q < |s.procs| && q != p && q != c ==> s'.procs[q].pc == s.procs[q].pc
    ensures Moves(s, s', p)
  {
    assert SameGrip(s.procs[c].pc, s'.procs[c].pc, c);
    assert Names(|s.procs|, s'.procs[c].pc);
    hide HoldsWl, HoldsLk, Names;
  }

  ghost predicate SameLks(s: State, s': State)
    requires |s'.procs| == |s.procs|
  {
    forall q :: 0 <= q < |s.procs| ==> s'.procs[q].lk == s.procs[q].lk
  }

  ghost predicate SameHolds(s: State, s': State, p: Pid)
    requires |s'.procs| == |s.procs| && p < |s.procs|
  {
    forall q :: HoldsLk(s'.procs[p].pc, p, q) == HoldsLk(s.procs[p].pc, p, q)
  }

  lemma MoveOnly(s: State, s': State, p: Pid)
    requires LocksMatch(s) && Moves(s, s', p) && s'.wl == s.wl && SameLks(s, s') && SameHolds(s, s', p)
    requires HoldsWl(s'.procs[p].pc) == HoldsWl(s.procs[p].pc)
    ensures LocksMatch(s')
  {
    hide HoldsWl, HoldsLk, Names;
  }

  lemma TakeWl(s: State, s': State, p: Pid)
    requires LocksMatch(s) && Moves(s, s', p) && s.wl == Free && s'.wl == Held(p) && SameLks(s, s')
    requires SameHolds(s, s', p)
    requires HoldsWl(s'.procs[p].pc)
    ensures LocksMatch(s')
  {
    hide HoldsWl, HoldsLk, Names;
  }

  lemma DropWl(s: State, s': State, p: Pid)
    requires LocksMatch(s) && Moves(s, s', p) && s'.wl == Free && SameLks(s, s') && SameHolds(s, s', p)
    requires HoldsWl(s.procs[p].pc) && !HoldsWl(s'.procs[p].pc)
    ensures LocksMatch(s')
  {
    hide HoldsWl, HoldsLk, Names;
    assert s.wl == Held(p);
  }

  lemma TakeLk(s: State, s': State, p: Pid, q: Pid)
    requires LocksMatch(s) && Moves(s, s', p) && q < |s.procs| && s'.wl == s.wl
    requires s.procs[q].lk == Free && s'.procs[q].lk == Held(p)
    requires forall k :: 0 <= k < |s.procs| && k != q ==> s'.procs[k].lk == s.procs[k].lk
    requires HoldsWl(s'.procs[p].pc) == HoldsWl(s.procs[p].pc)
    requires forall k :: HoldsLk(s'.procs[p].pc, p, k) <==> HoldsLk(s.procs[p].pc, p, k) || k == q
    ensures LocksMatch(s')
  {
    hide HoldsWl, HoldsLk, Names;
  }

  lemma DropLk(s: State, s': State, p: Pid, q: Pid)
    requires LocksMatch(s) && Moves(s, s', p) && q < |s.procs| && s'.wl == s.wl
    requires HoldsLk(s.procs[p].pc, p, q) && s'.procs[q].lk == Free
    requires forall k :: 0 <= k < |s.procs| && k != q ==> s'.procs[k].lk == s.procs[k].lk
    requires HoldsWl(s'.procs[p].pc) == HoldsWl(s.procs[p].pc)
    requires forall k :: HoldsLk(s'.procs[p].pc, p, k) <==> HoldsLk(s.procs[p].pc, p, k) && k != q
    ensures LocksMatch(s')
  {
    hide HoldsWl, HoldsLk, Names;
    assert s.procs[q].lk == Held(p);
  }

  // ---- States ----

  /** What a slot's state and channel are at each pc. */
  predicate StateOk(p: Pid, pr: Proc) {
    && (match pr.pc
        case Off => pr.st == Unused || pr.st == Used
        case NewBorn => pr.st == Runnable
        case Parked => pr.st == Sleeping || pr.st == Runnable
        case SlOff => pr.st == Sleeping
        case ExRel => pr.st == Zombie
        case ExOff => pr.st == Zombie
        case Dead => pr.st == Zombie
        case _ => pr.st == Running)
    && (pr.pc.SlMark? || pr.pc.SlOff? || pr.pc.Parked? ==> pr.chan == OnProc(p))
    && (pr.st == Unused ==> pr.parent == NoParent)
  }

  /** A USED slot is being made by exactly the process `maker`. */
  ghost predicate MakerOk(s: State, p: Pid)
    requires p < |s.procs|
  {
    var pr := s.procs[p];
    && (pr.st == Used ==>
          && pr.maker < |s.procs| && pr.maker != p && InFork(s.procs[pr.maker].pc) && s.procs[pr.maker].pc.np == p
          && pr.parent == (if s.procs[pr.maker].pc.ForkInit? || s.procs[pr.maker].pc.ForkPar?
             || s.procs[pr.maker].pc.ForkSet?
                           then NoParent else Par(pr.maker)))
    && (InFork(pr.pc) ==> pr.pc.np < |s.procs| && s.procs[pr.pc.np].st == Used && s.procs[pr.pc.np].maker == p)
  }

  /** initproc never exits. */
  ghost predicate StatesOk(s: State) {
    && (forall p :: 0 <= p < |s.procs| ==> StateOk(p, s.procs[p]))
    && (forall p :: 0 <= p < |s.procs| ==> MakerOk(s, p))
    && (|s.procs| > INIT ==> Alive(s.procs[INIT].pc))
  }

  // ---- Parents ----

  /** q can no longer get or have children: reparent is over. */
  predicate Childless(pc: PC) {
    pc.ExWake? || pc.ExWakeAt? || pc.ExLk? || pc.ExMark? || pc.ExRel? || pc.ExOff? || pc.Dead? || pc.Off?
  }

  /** Processes below this index no longer have q as parent. */
  function Passed(pc: PC): nat {
    match pc
    case Rep(i) => i
    case RepWake(i, _) => i + 1
    case RepWakeAt(i, _) => i + 1
    case _ => 0
  }

  /** c's parent, if any, is a live process that has not given c away; a process past
      fork has one. */
  ghost predicate ParentOk(s: State, c: Pid)
    requires c < |s.procs|
  {
    var pr := s.procs[c];
    && (pr.parent.Par? ==>
          && pr.parent.q < |s.procs| && pr.parent.q != c
          && !Childless(s.procs[pr.parent.q].pc) && c >= Passed(s.procs[pr.parent.q].pc))
    && (c != INIT && pr.st != Unused && pr.st != Used ==> pr.parent.Par?)
  }

  ghost predicate ParentsOk(s: State) {
    && (forall c :: 0 <= c < |s.procs| ==> ParentOk(s, c))
    && (|s.procs| > INIT ==> s.procs[INIT].parent == NoParent)
  }

  // ---- Waiting parents ----

  /** p scanned its children, found no zombie, and has not been woken since. */
  predicate Waiting(pr: Proc) {
    pr.pc.SlChan? || pr.pc.SlMark? || pr.pc.SlOff? || (pr.pc.Parked? && pr.st == Sleeping)
  }

  /** The holder of wait_lock is about to wake initproc. */
  ghost predicate InitWakeComing(s: State) {
    && s.wl.Held? && s.wl.p < |s.procs| && s.wl.p != INIT
    && var pc := s.procs[s.wl.p].pc; (pc.RepWake? || pc.RepWakeAt?) && pc.j <= INIT
  }

  ghost predicate NoZombieChild(s: State, p: Pid, bound: nat) {
    forall c :: 0 <= c < |s.procs| && c < bound && s.procs[c].parent == Par(p) ==> s.procs[c].st != Zombie
  }

  ghost predicate WaitOk(s: State, p: Pid)
    requires p < |s.procs|
  {
    var pr, n := s.procs[p], |s.procs|;
    && (Waiting(pr) ==> NoZombieChild(s, p, n) || (p == INIT && InitWakeComing(s)))
    && (pr.pc.Scan? ==> NoZombieChild(s, p, pr.pc.i))
    && (pr.pc.ScanAt? ==> NoZombieChild(s, p, pr.pc.i))
    && (pr.pc.SlLk? || pr.pc.SlRel? ==> NoZombieChild(s, p, n))
    && (pr.parent.Par? && pr.parent.q < n ==>
          && (pr.pc.ExWake? || pr.pc.ExWakeAt? ==> pr.parent.q < pr.pc.j ==> !Waiting(s.procs[pr.parent.q]))
          && (pr.pc.ExLk? || pr.pc.ExMark? ==> !Waiting(s.procs[pr.parent.q])))
  }

  ghost predicate WaitsOk(s: State) {
    forall p :: 0 <= p < |s.procs| ==> WaitOk(s, p)
  }

  // ---- Pids ----

  ghost predicate NoDup(l: seq<nat>) {
    forall i, j :: 0 <= i < j < |l| ==> l[i] != l[j]
  }

  ghost predicate HasZombie(s: State, x: nat) {
    exists p :: 0 <= p < |s.procs| && s.procs[p].st == Zombie && s.procs[p].pid == x
  }

  /** Pids in use are distinct and fresh; zombies and nobody else have exited without
      being reaped. */
  ghost predicate PidsOk(s: State) {
    && (forall p :: 0 <= p < |s.procs| && s.procs[p].st != Unused ==>
       s.procs[p].pid < s.nextPid && s.procs[p].pid !in s.reaped)
    && (forall p, q :: 0 <= p < q < |s.procs| && s.procs[p].st != Unused && s.procs[q].st != Unused ==>
       s.procs[p].pid != s.procs[q].pid)
    && (forall p :: 0 <= p < |s.procs| && s.procs[p].st != Unused ==>
       (s.procs[p].st == Zombie <==> s.procs[p].pid in s.exited))
    && (forall x :: x in s.exited ==> x < s.nextPid)
    && (forall x :: x in s.reaped ==> x in s.exited)
    && NoDup(s.reaped) && NoDup(s.exited)
  }

  ghost predicate NoneLost(s: State) {
    forall x :: x in s.exited && x !in s.reaped ==> HasZombie(s, x)
  }

  /** The child wait is looking at is its own. */
  ghost predicate KidsOk(s: State) {
    forall p :: 0 <= p < |s.procs| && s.procs[p].pc.ScanAt? && s.procs[p].pc.i < |s.procs| ==>
      s.procs[s.procs[p].pc.i].parent == Par(p)
  }

  ghost predicate Inv(s: State) {
    LocksMatch(s) && StatesOk(s) && ParentsOk(s) && WaitsOk(s) && PidsOk(s) && NoneLost(s) && KidsOk(s)
  }

  // ---- Locks: steps ----

  lemma ForkSlot(s: State, p: Pid)
    requires StatesOk(s) && p < |s.procs| && InFork(s.procs[p].pc)
    ensures var np := s.procs[p].pc.np;
            np < |s.procs| && np != p && s.procs[np].st == Used && s.procs[np].maker == p && s.procs[np].pc == Off
  {
    assert StateOk(p, s.procs[p]) && MakerOk(s, p);
    assert StateOk(s.procs[p].pc.np, s.procs[s.procs[p].pc.np]);
  }

  lemma LocksForkA(s: State, p: Pid)
    requires LocksMatch(s) && CanGo(s, p) && InFork(s.procs[p].pc) && s.procs[p].pc.np != p
    requires s.procs[p].pc.ForkInit? || s.procs[p].pc.ForkPar? || s.procs[p].pc.ForkSet?
    ensures LocksMatch(GoFork(s, p))
  {
    hide LocksMatch, Moves;
    var s', pc := GoFork(s, p), s.procs[p].pc;
    MovesAlone(s, s', p);
    if pc.ForkInit? {
      DropLk(s, s', p, pc.np);
    } else if pc.ForkPar? {
      TakeWl(s, s', p);
    } else {
      MoveOnly(s, s', p);
    }
  }

  lemma LocksForkB(s: State, p: Pid)
    requires LocksMatch(s) && CanGo(s, p) && InFork(s.procs[p].pc) && s.procs[p].pc.np != p
    requires s.procs[s.procs[p].pc.np].pc == Off
    requires s.procs[p].pc.ForkRel? || s.procs[p].pc.ForkRun? || s.procs[p].pc.ForkMark?
    ensures LocksMatch(GoFork(s, p))
  {
    hide LocksMatch, Moves;
    var s', pc := GoFork(s, p), s.procs[p].pc;
    if pc.ForkMark? {
      MovesWith(s, s', p, pc.np);
      DropLk(s, s', p, pc.np);
    } else {
      MovesAlone(s, s', p);
      if pc.ForkRel? {
        DropWl(s, s', p);
      } else {
        TakeLk(s, s', p, pc.np);
      }
    }
  }

  lemma LocksBorn(s: State, p: Pid)
    requires LocksMatch(s) && CanGo(s, p) && (s.procs[p].pc.NewBorn? || s.procs[p].pc.BornBack?)
    ensures LocksMatch(GoFork(s, p))
  {
    hide LocksMatch, Moves;
    var s', pc := GoFork(s, p), s.procs[p].pc;
    MovesAlone(s, s', p);
    if pc.NewBorn? {
      TakeLk(s, s', p, p);
    } else {
      DropLk(s, s', p, p);
    }
  }

  lemma LocksExitA(s: State, p: Pid)
    requires LocksMatch(s) && CanGo(s, p)
    requires s.procs[p].pc.Rep? || s.procs[p].pc.RepWake? || s.procs[p].pc.RepWakeAt?
    ensures LocksMatch(GoExit(s, p))
  {
    hide LocksMatch, Moves;
    var s', pc, n := GoExit(s, p), s.procs[p].pc, |s.procs|;
    MovesAlone(s, s', p);
    if pc.RepWakeAt? {
      DropLk(s, s', p, pc.j);
    } else if pc.RepWake? && pc.j < n && pc.j != p {
      TakeLk(s, s', p, pc.j);
    } else {
      MoveOnly(s, s', p);
    }
  }

  lemma LocksExitB(s: State, p: Pid)
    requires LocksMatch(s) && CanGo(s, p)
    requires s.procs[p].pc.ExWake? || s.procs[p].pc.ExWakeAt? || s.procs[p].pc.ExMark?
    ensures LocksMatch(GoExit(s, p))
  {
    hide LocksMatch, Moves;
    var s', pc, n := GoExit(s, p), s.procs[p].pc, |s.procs|;
    MovesAlone(s, s', p);
    if pc.ExWakeAt? {
      DropLk(s, s', p, pc.j);
    } else if pc.ExWake? && pc.j < n && pc.j != p {
      TakeLk(s, s', p, pc.j);
    } else {
      MoveOnly(s, s', p);
    }
  }

  lemma LocksExitC(s: State, p: Pid)
    requires LocksMatch(s) && CanGo(s, p)
    requires s.procs[p].pc.ExitLk? || s.procs[p].pc.ExLk? || s.procs[p].pc.ExRel? || s.procs[p].pc.ExOff?
    ensures LocksMatch(GoExit(s, p))
  {
    hide LocksMatch, Moves;
    var s', pc := GoExit(s, p), s.procs[p].pc;
    MovesAlone(s, s', p);
    if pc.ExitLk? {
      TakeWl(s, s', p);
    } else if pc.ExLk? {
      TakeLk(s, s', p, p);
    } else if pc.ExRel? {
      DropWl(s, s', p);
    } else {
      DropLk(s, s', p, p);
    }
  }

  predicate WaitPc(pc: PC) {
    || pc.WaitLk? || pc.Scan? || pc.ScanAt? || pc.ScanFree? || pc.ScanRel? || pc.SlLk? || pc.SlRel? || pc.SlChan?
      || pc.SlMark?
    || pc.SlOff? || pc.Parked? || pc.Woken? || pc.SlBack?
  }

  /** Once its own lock is free, a zombie is off the CPU for good. */
  lemma ZombieIsDead(s: State, p: Pid, c: Pid)
    requires LocksMatch(s) && StatesOk(s) && p < |s.procs| && c < |s.procs| && HoldsLk(s.procs[p].pc, p, c)
    requires s.procs[c].st == Zombie
    requires s.procs[p].pc.ScanAt?
    ensures s.procs[c].pc == Dead && c != p
  {
    assert StateOk(c, s.procs[c]) && StateOk(p, s.procs[p]);
    assert s.procs[c].lk == Held(p);
    assert s.procs[c].lk == Held(c) <==> HoldsLk(s.procs[c].pc, c, c);
  }

  /** What freeing a zombie does, once and for all. */
  lemma Frees(s: State, p: Pid)
    requires CanGo(s, p) && s.procs[p].pc.ScanAt?
    ensures s.procs[p].pc.i < |s.procs|
    ensures s.procs[s.procs[p].pc.i].st == Zombie ==> GoWait(s, p) == Reap(s, p, s.procs[p].pc.i)
  {
    hide Reap, SetPc, SetLk;
  }

  lemma FreesDead(s: State, p: Pid)
    requires LocksMatch(s) && StatesOk(s) && CanGo(s, p) && s.procs[p].pc.ScanAt?
    requires s.procs[s.procs[p].pc.i].st == Zombie
    ensures p < |s.procs| && s.procs[p].pc.i < |s.procs| && s.procs[p].pc.i != p
    ensures s.procs[s.procs[p].pc.i].pc == Dead && GoWait(s, p) == Reap(s, p, s.procs[p].pc.i)
  {
    hide Reap, GoWait, LocksMatch, StatesOk;
    Frees(s, p);
    ZombieIsDead(s, p, s.procs[p].pc.i);
  }

  lemma LocksReap(s: State, p: Pid, i: Pid)
    requires LocksMatch(s) && p < |s.procs| && i < |s.procs| && s.procs[p].pc == ScanAt(i) && s.procs[i].st == Zombie
    requires s.procs[i].pc == Dead && i != p
    ensures LocksMatch(Reap(s, p, i))
  {
    hide LocksMatch, Moves;
    MovesWith(s, Reap(s, p, i), p, i);
    MoveOnly(s, Reap(s, p, i), p);
  }

  lemma LocksWaitA(s: State, p: Pid)
    requires LocksMatch(s) && CanGo(s, p) && (s.procs[p].pc.ScanAt? || s.procs[p].pc.ScanFree?)
    requires s.procs[p].pc.ScanAt? && s.procs[s.procs[p].pc.i].st == Zombie ==>
               s.procs[s.procs[p].pc.i].pc == Dead && s.procs[p].pc.i != p
    ensures LocksMatch(GoWait(s, p))
  {
    hide LocksMatch, Moves, Reap;
    var s', pc := GoWait(s, p), s.procs[p].pc;
    if pc.ScanAt? && s.procs[pc.i].st == Zombie {
      LocksReap(s, p, pc.i);
    } else {
      MovesAlone(s, s', p);
      DropLk(s, s', p, pc.i);
    }
  }

  lemma LocksScan(s: State, p: Pid)
    requires LocksMatch(s) && CanGo(s, p) && s.procs[p].pc.Scan?
    ensures LocksMatch(GoWait(s, p))
  {
    hide LocksMatch, Moves;
    var s', pc, n := GoWait(s, p), s.procs[p].pc, |s.procs|;
    MovesAlone(s, s', p);
    if pc.i < n && s.procs[pc.i].parent == Par(p) {
      TakeLk(s, s', p, pc.i);
    } else {
      MoveOnly(s, s', p);
    }
  }

  lemma LocksWaitB(s: State, p: Pid)
    requires LocksMatch(s) && CanGo(s, p)
    requires var pc := s.procs[p].pc; pc.WaitLk? || pc.ScanRel? || pc.SlLk? || pc.SlRel?
    ensures LocksMatch(GoWait(s, p))
  {
    hide LocksMatch, Moves;
    var s', pc := GoWait(s, p), s.procs[p].pc;
    MovesAlone(s, s', p);
    if pc.WaitLk? {
      TakeWl(s, s', p);
    } else if pc.SlLk? {
      TakeLk(s, s', p, p);
    } else {
      DropWl(s, s', p);
    }
  }

  lemma LocksWaitC(s: State, p: Pid)
    requires LocksMatch(s) && CanGo(s, p)
    requires var pc := s.procs[p].pc; pc.SlChan? || pc.SlMark? || pc.SlOff? || pc.Parked? || pc.Woken? || pc.SlBack?
    ensures LocksMatch(GoWait(s, p))
  {
    hide LocksMatch, Moves;
    var s', pc := GoWait(s, p), s.procs[p].pc;
    MovesAlone(s, s', p);
    if pc.Parked? {
      TakeLk(s, s', p, p);
    } else if pc.SlOff? || pc.SlBack? {
      DropLk(s, s', p, p);
    } else {
      MoveOnly(s, s', p);
    }
  }

  lemma LocksGoWait(s: State, p: Pid)
    requires LocksMatch(s) && StatesOk(s) && CanGo(s, p) && WaitPc(s.procs[p].pc)
    ensures LocksMatch(GoWait(s, p))
  {
    hide LocksMatch, StatesOk, GoWait;
    var pc := s.procs[p].pc;
    if pc.Scan? {
      LocksScan(s, p);
    } else if pc.ScanAt? || pc.ScanFree? {
      if pc.ScanAt? && s.procs[pc.i].st == Zombie { ZombieIsDead(s, p, pc.i); }
      LocksWaitA(s, p);
    } else if pc.WaitLk? || pc.ScanRel? || pc.SlLk? || pc.SlRel? {
      LocksWaitB(s, p);
    } else {
      LocksWaitC(s, p);
    }
  }

  lemma LocksGoExit(s: State, p: Pid)
    requires LocksMatch(s) && CanGo(s, p) && ExitPc(s.procs[p].pc)
    ensures LocksMatch(GoExit(s, p))
  {
    hide LocksMatch, GoExit;
    var pc := s.procs[p].pc;
    if pc.Rep? || pc.RepWake? || pc.RepWakeAt? {
      LocksExitA(s, p);
    } else if pc.ExWake? || pc.ExWakeAt? || pc.ExMark? {
      LocksExitB(s, p);
    } else {
      LocksExitC(s, p);
    }
  }

  lemma LocksGoFork(s: State, p: Pid)
    requires LocksMatch(s) && StatesOk(s) && CanGo(s, p) && ForkPc(s.procs[p].pc)
    ensures LocksMatch(GoFork(s, p))
  {
    hide LocksMatch, StatesOk, GoFork;
    var pc := s.procs[p].pc;
    if pc.ForkInit? || pc.ForkPar? || pc.ForkSet? {
      ForkSlot(s, p);
      LocksForkA(s, p);
    } else if InFork(pc) {
      ForkSlot(s, p);
      LocksForkB(s, p);
    } else {
      LocksBorn(s, p);
    }
  }

  lemma LocksGo(s: State, p: Pid)
    requires LocksMatch(s) && StatesOk(s) && CanGo(s, p) && !s.procs[p].pc.KillAt?
    ensures LocksMatch(Next(s, Go(p)))
  {
    hide LocksMatch, StatesOk, GoFork, GoExit, GoWait;
    var pc := s.procs[p].pc;
    if ForkPc(pc) {
      LocksGoFork(s, p);
    } else if ExitPc(pc) {
      LocksGoExit(s, p);
    } else {
      LocksGoWait(s, p);
    }
  }

  lemma LocksStart(s: State, a: Action)
    requires LocksMatch(s) && Enabled(s, a) && (a.Exit? || a.Wait? || a.Kill?)
    ensures LocksMatch(Next(s, a))
  {
    hide LocksMatch, Moves, GoFork, GoExit, GoWait;
    var s' := Next(s, a);
    MovesAlone(s, s', a.p);
    if a.Kill? {
      TakeLk(s, s', a.p, a.q);
    } else {
      MoveOnly(s, s', a.p);
    }
  }

  lemma LocksForkStart(s: State, p: Pid, np: Pid)
    requires LocksMatch(s) && StatesOk(s) && Enabled(s, Fork(p, np))
    ensures LocksMatch(Next(s, Fork(p, np)))
  {
    assert StateOk(p, s.procs[p]);
    hide LocksMatch, StatesOk, StateOk, Moves, GoFork, GoExit, GoWait;
    var s' := Next(s, Fork(p, np));
    MovesAlone(s, s', p);
    TakeLk(s, s', p, np);
  }

  lemma LocksForkFail(s: State, p: Pid)
    requires LocksMatch(s) && StatesOk(s) && Enabled(s, ForkFail(p))
    ensures LocksMatch(Next(s, ForkFail(p)))
  {
    hide LocksMatch, StatesOk, Moves, GoFork, GoExit, GoWait;
    ForkSlot(s, p);
    var s' := Next(s, ForkFail(p));
    MovesAlone(s, s', p);
    DropLk(s, s', p, s.procs[p].pc.np);
  }

  lemma LocksDrop(s: State, a: Action)
    requires LocksMatch(s) && Enabled(s, a) && (a.WaitFail? || (a.Go? && s.procs[a.p].pc.KillAt?))
    ensures LocksMatch(Next(s, a))
  {
    hide LocksMatch, Moves, GoFork, GoExit, GoWait;
    var s' := Next(s, a);
    MovesAlone(s, s', a.p);
    DropLk(s, s', a.p, if a.WaitFail? then s.procs[a.p].pc.i else s.procs[a.p].pc.q);
  }

  lemma LocksStep(s: State, a: Action)
    requires LocksMatch(s) && StatesOk(s) && Enabled(s, a)
    ensures LocksMatch(Next(s, a))
  {
    hide LocksMatch, StatesOk, Next;
    if a.Go? && !s.procs[a.p].pc.KillAt? {
      LocksGo(s, a.p);
    } else if a.Fork? {
      LocksForkStart(s, a.p, a.np);
    } else if a.ForkFail? {
      LocksForkFail(s, a.p);
    } else if a.WaitFail? || a.Go? {
      LocksDrop(s, a);
    } else {
      LocksStart(s, a);
    }
  }

  // ---- States: steps ----

  lemma StateOkFork(s: State, p: Pid, q: Pid)
    requires CanGo(s, p) && ForkPc(s.procs[p].pc) && q < |s.procs| && StateOk(q, s.procs[q]) && StateOk(p, s.procs[p])
    requires InFork(s.procs[p].pc) ==>
               var np := s.procs[p].pc.np; np < |s.procs| && np != p && s.procs[np].st == Used && s.procs[np].pc == Off
    ensures |GoFork(s, p).procs| == |s.procs| && StateOk(q, GoFork(s, p).procs[q])
  {
  }

  /** wakeup or kill on a process that is not just switching away. */
  lemma RousedOk(q: Pid, pr: Proc, pr': Proc)
    requires StateOk(q, pr) && !pr.pc.SlOff?
    requires pr'.pc == pr.pc && pr'.chan == pr.chan && pr'.parent == pr.parent
    requires pr'.st == pr.st || (pr.st == Sleeping && pr'.st == Runnable)
    ensures StateOk(q, pr')
  {
  }

  /** Only the lock, the killed flag or a live process's parent changed. */
  lemma SameStateOk(q: Pid, pr: Proc, pr': Proc)
    requires StateOk(q, pr) && pr'.pc == pr.pc && pr'.st == pr.st && pr'.chan == pr.chan
    requires pr'.parent == pr.parent || pr.parent != NoParent
    ensures StateOk(q, pr')
  {
  }

  lemma StateOkExitSelf(s: State, p: Pid)
    requires CanGo(s, p) && ExitPc(s.procs[p].pc) && StateOk(p, s.procs[p])
    ensures |GoExit(s, p).procs| == |s.procs| && StateOk(p, GoExit(s, p).procs[p])
  {
  }

  lemma StateOkExit(s: State, p: Pid, q: Pid)
    requires LocksMatch(s) && CanGo(s, p) && ExitPc(s.procs[p].pc) && q < |s.procs| && StateOk(q, s.procs[q]) && q != p
    ensures |GoExit(s, p).procs| == |s.procs| && StateOk(q, GoExit(s, p).procs[q])
  {
    var pc := s.procs[p].pc;
    if (pc.RepWakeAt? || pc.ExWakeAt?) && pc.j == q {
      LockedOut(s, p, q);
    }
    hide LocksMatch, StateOk;
    var s' := GoExit(s, p);
    if (pc.RepWakeAt? || pc.ExWakeAt?) && pc.j == q {
      RousedOk(q, s.procs[q], s'.procs[q]);
    } else {
      SameStateOk(q, s.procs[q], s'.procs[q]);
    }
  }

  /** Whoever holds j's lock from outside finds j not about to switch away. */
  lemma LockedOut(s: State, p: Pid, j: Pid)
    requires LocksMatch(s) && p < |s.procs| && j < |s.procs| && HoldsLk(s.procs[p].pc, p, j)
    requires s.procs[p].pc.RepWakeAt? || s.procs[p].pc.ExWakeAt? || s.procs[p].pc.KillAt?
    ensures !s.procs[j].pc.SlChan? && !s.procs[j].pc.SlMark? && !s.procs[j].pc.SlOff?
  {
    assert s.procs[j].lk == Held(p);
    assert s.procs[j].lk == Held(j) <==> HoldsLk(s.procs[j].pc, j, j);
  }

  lemma StateOkWait(s: State, p: Pid, q: Pid)
    requires CanGo(s, p) && WaitPc(s.procs[p].pc) && q < |s.procs| && StateOk(q, s.procs[q]) && StateOk(p, s.procs[p])
    requires s.procs[p].pc.ScanAt? && s.procs[s.procs[p].pc.i].st == Zombie ==>
               s.procs[s.procs[p].pc.i].pc == Dead && s.procs[p].pc.i != p
    ensures |GoWait(s, p).procs| == |s.procs| && StateOk(q, GoWait(s, p).procs[q])
  {
    hide StateOk, GoWait;
    if s.procs[p].pc.Scan? || s.procs[p].pc.ScanAt? || s.procs[p].pc.ScanFree? || s.procs[p].pc.ScanRel?
      || s.procs[p].pc.WaitLk? {
      StateOkScan(s, p, q);
    } else {
      StateOkSleep(s, p, q);
    }
  }

  lemma StateOkScan(s: State, p: Pid, q: Pid)
    requires CanGo(s, p) && ScanPc(s.procs[p].pc) && q < |s.procs| && StateOk(q, s.procs[q]) && StateOk(p, s.procs[p])
    requires s.procs[p].pc.ScanAt? && s.procs[s.procs[p].pc.i].st == Zombie ==>
               s.procs[s.procs[p].pc.i].pc == Dead && s.procs[p].pc.i != p
    ensures |GoWait(s, p).procs| == |s.procs| && StateOk(q, GoWait(s, p).procs[q])
  {
    hide StateOk, Reap;
    if s.procs[p].pc.ScanAt? && s.procs[s.procs[p].pc.i].st == Zombie {
      StateOkReap(s, p, s.procs[p].pc.i, q);
    } else {
      var pr, pr' := s.procs[q], GoWait(s, p).procs[q];
      if q == p {
        StateOkRuns(p, pr, pr');
      } else {
        StateOkSame(q, pr, pr');
      }
    }
  }

  lemma StateOkReap(s: State, p: Pid, i: Pid, q: Pid)
    requires p < |s.procs| && i < |s.procs| && q < |s.procs| && s.procs[p].pc == ScanAt(i) && i != p
    requires StateOk(q, s.procs[q]) && StateOk(p, s.procs[p])
    ensures |Reap(s, p, i).procs| == |s.procs| && StateOk(q, Reap(s, p, i).procs[q])
  {
  }

  /** A process that runs on, in one of wait's scanning steps. */
  lemma StateOkRuns(p: Pid, pr: Proc, pr': Proc)
    requires StateOk(p, pr) && ScanPc(pr.pc) && pr'.st == pr.st && pr'.parent == pr.parent
    requires ScanPc(pr'.pc) || pr'.pc == Run || pr'.pc == SlLk
    ensures StateOk(p, pr')
  {
  }

  lemma StateOkSame(p: Pid, pr: Proc, pr': Proc)
    requires StateOk(p, pr) && pr'.pc == pr.pc && pr'.st == pr.st && pr'.chan == pr.chan && pr'.parent == pr.parent
    ensures StateOk(p, pr')
  {
  }

  lemma StateOkSleep(s: State, p: Pid, q: Pid)
    requires CanGo(s, p) && WaitPc(s.procs[p].pc) && !ScanPc(s.procs[p].pc) && q < |s.procs| && StateOk(q, s.procs[q])
    requires StateOk(p, s.procs[p])
    ensures |GoWait(s, p).procs| == |s.procs| && StateOk(q, GoWait(s, p).procs[q])
  {
  }

  lemma StateOkOther(s: State, a: Action, q: Pid)
    requires Enabled(s, a) && !a.Go?
    requires q < |s.procs| && StateOk(q, s.procs[q]) && StateOk(a.p, s.procs[a.p])
    requires a.ForkFail? ==>
               var np := s.procs[a.p].pc.np;
               np < |s.procs| && np != a.p && s.procs[np].st == Used && s.procs[np].pc == Off
    ensures |Next(s, a).procs| == |s.procs| && StateOk(q, Next(s, a).procs[q])
  {
    hide GoFork, GoExit, GoWait, Names;
    var s', np := Next(s, a), if a.Fork? then a.np else if a.ForkFail? then s.procs[a.p].pc.np else |s.procs|;
    assert s.procs[a.p].st == Running && np != a.p;
    if q == a.p {
      RunningOk(q, s.procs[q], s'.procs[q]);
    } else if q == np {
      assert s.procs[q].pc == Off;
    } else {
      hide StateOk;
      SameStateOk(q, s.procs[q], s'.procs[q]);
    }
  }

  lemma RunningOk(p: Pid, pr: Proc, pr': Proc)
    requires StateOk(p, pr) && pr'.st == Running
    requires pr'.pc.ForkInit? || pr'.pc.Run? || pr'.pc.ExitLk? || pr'.pc.WaitLk? || pr'.pc.ScanRel? || pr'.pc.KillAt?
    ensures StateOk(p, pr')
  {
  }

  lemma StateOkKill(s: State, p: Pid, q: Pid)
    requires LocksMatch(s) && CanGo(s, p) && s.procs[p].pc.KillAt?
    requires q < |s.procs| && StateOk(q, s.procs[q]) && StateOk(p, s.procs[p])
    ensures |Next(s, Go(p)).procs| == |s.procs| && StateOk(q, Next(s, Go(p)).procs[q])
  {
    hide GoFork, GoExit, GoWait;
    LockedOut(s, p, s.procs[p].pc.q);
    hide LocksMatch;
    var s' := Next(s, Go(p));
    if q == p {
      assert s'.procs[q].st == s.procs[q].st == Running;
    } else {
      hide StateOk;
      if q == s.procs[p].pc.q {
        RousedOk(q, s.procs[q], s'.procs[q]);
      } else {
        SameStateOk(q, s.procs[q], s'.procs[q]);
      }
    }
  }

  lemma StateOkStep(s: State, a: Action, q: Pid)
    requires LocksMatch(s) && StatesOk(s) && Enabled(s, a) && q < |s.procs|
    ensures |Next(s, a).procs| == |s.procs| && StateOk(q, Next(s, a).procs[q])
  {
    assert StateOk(q, s.procs[q]) && StateOk(a.p, s.procs[a.p]);
    hide LocksMatch, StatesOk, GoFork, GoExit, GoWait, StateOk;
    var pc := s.procs[a.p].pc;
    if InFork(pc) {
      ForkSlot(s, a.p);
    }
    if !a.Go? {
      StateOkOther(s, a, q);
    } else if pc.KillAt? {
      StateOkKill(s, a.p, q);
    } else if ForkPc(pc) {
      StateOkFork(s, a.p, q);
    } else if ExitPc(pc) {
      if q == a.p { StateOkExitSelf(s, q); } else { StateOkExit(s, a.p, q); }
    } else {
      if pc.ScanAt? && s.procs[pc.i].st == Zombie { ZombieIsDead(s, a.p, pc.i); }
      StateOkWait(s, a.p, q);
    }
  }

  // ---- Steps that make, give away, end or free no process ----

  predicate Special(s: State, a: Action)
    requires Enabled(s, a)
  {
    || a.Fork? || a.ForkFail?
    || (a.Go? && var pc := s.procs[a.p].pc;
        || pc.ForkSet? || pc.ForkMark? || pc.ExMark?
        || (pc.Rep? && pc.i < |s.procs| && s.procs[pc.i].parent == Par(a.p))
        || (pc.ScanAt? && s.procs[pc.i].st == Zombie))
  }

  predicate SameBirth(pr: Proc, pr': Proc) {
    && pr'.parent == pr.parent && pr'.pid == pr.pid && pr'.maker == pr.maker
    && (pr'.st == Unused <==> pr.st == Unused) && (pr'.st == Used <==> pr.st == Used)
    && (pr'.st == Zombie <==> pr.st == Zombie)
  }

  /** Same process, same place, perhaps woken or locked. */
  predicate Bystander(pr: Proc, pr': Proc) {
    pr'.pc == pr.pc && pr'.chan == pr.chan && (pr'.st == pr.st || (pr.st == Sleeping && pr'.st == Runnable))
  }

  lemma QuietFork(s: State, p: Pid, q: Pid)
    requires CanGo(s, p) && ForkPc(s.procs[p].pc) && !s.procs[p].pc.ForkSet? && !s.procs[p].pc.ForkMark?
    requires q < |s.procs|
    requires StateOk(p, s.procs[p])
    ensures var s' := GoFork(s, p);
            && |s'.procs| == |s.procs| && s'.nextPid == s.nextPid && s'.exited == s.exited && s'.reaped == s.reaped
            && SameBirth(s.procs[q], s'.procs[q]) && (q != p ==> Bystander(s.procs[q], s'.procs[q]))
  {
  }

  lemma QuietExit(s: State, p: Pid, q: Pid)
    requires CanGo(s, p) && ExitPc(s.procs[p].pc) && !s.procs[p].pc.ExMark? && q < |s.procs|
    requires !(s.procs[p].pc.Rep? && s.procs[p].pc.i < |s.procs| && s.procs[s.procs[p].pc.i].parent == Par(p))
    ensures var s' := GoExit(s, p);
            && |s'.procs| == |s.procs| && s'.nextPid == s.nextPid && s'.exited == s.exited && s'.reaped == s.reaped
            && SameBirth(s.procs[q], s'.procs[q]) && (q != p ==> Bystander(s.procs[q], s'.procs[q]))
  {
  }

  lemma QuietWait(s: State, p: Pid, q: Pid)
    requires CanGo(s, p) && WaitPc(s.procs[p].pc) && q < |s.procs| && StateOk(p, s.procs[p])
    requires !(s.procs[p].pc.ScanAt? && s.procs[s.procs[p].pc.i].st == Zombie)
    ensures var s' := GoWait(s, p);
            && |s'.procs| == |s.procs| && s'.nextPid == s.nextPid && s'.exited == s.exited && s'.reaped == s.reaped
            && SameBirth(s.procs[q], s'.procs[q]) && (q != p ==> Bystander(s.procs[q], s'.procs[q]))
  {
  }

  lemma QuietOther(s: State, a: Action, q: Pid)
    requires Enabled(s, a) && !a.Fork? && !a.ForkFail? && (a.Go? ==> s.procs[a.p].pc.KillAt?) && q < |s.procs|
    ensures var s' := Next(s, a);
            && |s'.procs| == |s.procs| && s'.nextPid == s.nextPid && s'.exited == s.exited && s'.reaped == s.reaped
            && SameBirth(s.procs[q], s'.procs[q]) && (q != a.p ==> Bystander(s.procs[q], s'.procs[q]))
  {
    hide GoFork, GoExit, GoWait;
  }

  lemma QuietStep(s: State, a: Action)
    requires StatesOk(s) && Enabled(s, a) && !Special(s, a)
    ensures var s' := Next(s, a);
            && |s'.procs| == |s.procs| && s'.nextPid == s.nextPid && s'.exited == s.exited && s'.reaped == s.reaped
            && forall q :: 0 <= q < |s.procs| ==>
               SameBirth(s.procs[q], s'.procs[q]) && (q != a.p ==> Bystander(s.procs[q], s'.procs[q]))
  {
    assert StateOk(a.p, s.procs[a.p]);
    var s' := Next(s, a);
    var pc := s.procs[a.p].pc;
    hide GoFork, GoExit, GoWait, StatesOk, StateOk, SameBirth, Bystander;
    QuietAt(s, a, a.p);
    forall q | 0 <= q < |s.procs|
      ensures SameBirth(s.procs[q], s'.procs[q]) && (q != a.p ==> Bystander(s.procs[q], s'.procs[q])) {
      QuietAt(s, a, q);
    }
  }

  lemma QuietAt(s: State, a: Action, q: Pid)
    requires Enabled(s, a) && !Special(s, a) && q < |s.procs| && StateOk(a.p, s.procs[a.p])
    ensures var s' := Next(s, a);
            && |s'.procs| == |s.procs| && s'.nextPid == s.nextPid && s'.exited == s.exited && s'.reaped == s.reaped
            && SameBirth(s.procs[q], s'.procs[q]) && (q != a.p ==> Bystander(s.procs[q], s'.procs[q]))
  {
    var pc := s.procs[a.p].pc;
    hide GoFork, GoExit, GoWait, StateOk, SameBirth, Bystander;
    if !a.Go? || pc.KillAt? {
      QuietOther(s, a, q);
    } else if ForkPc(pc) {
      QuietFork(s, a.p, q);
    } else if ExitPc(pc) {
      QuietExit(s, a.p, q);
    } else {
      QuietWait(s, a.p, q);
    }
  }

  // ---- Makers: steps ----

  predicate EarlyFork(pc: PC) {
    pc.ForkInit? || pc.ForkPar? || pc.ForkSet?
  }

  /** How a step that is not special may move its process: it stays in, or out of, the
      fork it is in; it goes on through its children one by one; and it starts to wait
      only after it has scanned all of them. */
  predicate Moved(s: State, p: Pid, pr: Proc, pr': Proc) {
    && InFork(pr.pc) == InFork(pr'.pc)
    && (InFork(pr.pc) ==> pr'.pc.np == pr.pc.np && EarlyFork(pr'.pc) == EarlyFork(pr.pc))
    && (Childless(pr'.pc) ==> Childless(pr.pc) || (pr.pc.Rep? && pr.pc.i >= |s.procs|))
    && (Passed(pr'.pc) <= Passed(pr.pc) || (pr.pc.Rep? && pr.pc.i < |s.procs| && Passed(pr'.pc) == pr.pc.i + 1))
    && (Waiting(pr') ==> Waiting(pr) || pr.pc.SlRel?)
    && (pr'.pc.SlLk? || pr'.pc.SlRel? ==> pr.pc.SlLk? || (pr.pc.Scan? && pr.pc.i >= |s.procs|))
    && (pr'.pc.Scan? ==>
          || pr'.pc.i == 0
          || (pr.pc.Scan? && pr.pc.i < |s.procs| && s.procs[pr.pc.i].parent != Par(p) && pr'.pc.i == pr.pc.i + 1)
          || (pr.pc.ScanAt? && pr.pc.i < |s.procs| && s.procs[pr.pc.i].st != Zombie && pr'.pc.i == pr.pc.i + 1))
    && (pr'.pc.ScanAt? ==>
       pr.pc.Scan? && pr'.pc.i == pr.pc.i && (pr.pc.i < |s.procs| ==> s.procs[pr.pc.i].parent == Par(p)))
    && (pr'.pc.ExWake? || pr'.pc.ExWakeAt? ==>
          pr'.pc.j == 0 || ((pr.pc.ExWake? || pr.pc.ExWakeAt?)
            && (pr'.pc.j == pr.pc.j || (pr'.pc.j == pr.pc.j + 1 && (pr.pc.ExWakeAt? || pr.pc.j == p)))))
    && (pr'.pc.ExLk? || pr'.pc.ExMark? ==> pr.pc.ExLk? || (pr.pc.ExWake? && pr.pc.j >= |s.procs|))
    && ((pr.pc.RepWake? || pr.pc.RepWakeAt?) && pr.pc.j == 0 && p != 0 ==>
          (pr.pc.RepWake? && pr'.pc.RepWakeAt? && pr'.pc.j == 0) || pr.pc.RepWakeAt?)
  }

  lemma MovedFork(s: State, p: Pid)
    requires CanGo(s, p) && ForkPc(s.procs[p].pc) && !s.procs[p].pc.ForkSet? && !s.procs[p].pc.ForkMark?
    ensures |GoFork(s, p).procs| == |s.procs| && Moved(s, p, s.procs[p], GoFork(s, p).procs[p])
  {
  }

  predicate RepPc(pc: PC) {
    pc.Rep? || pc.RepWake? || pc.RepWakeAt?
  }

  predicate ScanPc(pc: PC) {
    pc.Scan? || pc.ScanAt? || pc.ScanFree? || pc.ScanRel? || pc.WaitLk?
  }

  lemma MovedRep(s: State, p: Pid)
    requires CanGo(s, p) && RepPc(s.procs[p].pc) && |s.procs| > 0
    requires !(s.procs[p].pc.Rep? && s.procs[p].pc.i < |s.procs| && s.procs[s.procs[p].pc.i].parent == Par(p))
    ensures |GoExit(s, p).procs| == |s.procs| && Moved(s, p, s.procs[p], GoExit(s, p).procs[p])
  {
    hide Moved;
    if s.procs[p].pc.Rep? {
      MovedRepNext(s, p);
    } else {
      MovedRepWake(s, p);
    }
  }

  lemma MovedRepNext(s: State, p: Pid)
    requires CanGo(s, p) && s.procs[p].pc.Rep?
    requires !(s.procs[p].pc.i < |s.procs| && s.procs[s.procs[p].pc.i].parent == Par(p))
    ensures |GoExit(s, p).procs| == |s.procs| && Moved(s, p, s.procs[p], GoExit(s, p).procs[p])
  {
    hide SetLk, Roused;
  }

  lemma MovedRepWake(s: State, p: Pid)
    requires CanGo(s, p) && (s.procs[p].pc.RepWake? || s.procs[p].pc.RepWakeAt?) && |s.procs| > 0
    ensures |GoExit(s, p).procs| == |s.procs| && Moved(s, p, s.procs[p], GoExit(s, p).procs[p])
  {
    hide Roused;
  }

  lemma MovedExit(s: State, p: Pid)
    requires CanGo(s, p) && (s.procs[p].pc.ExitLk? || s.procs[p].pc.ExWake? || s.procs[p].pc.ExWakeAt?)
    ensures |GoExit(s, p).procs| == |s.procs| && Moved(s, p, s.procs[p], GoExit(s, p).procs[p])
  {
  }

  lemma MovedExitEnd(s: State, p: Pid)
    requires CanGo(s, p) && (s.procs[p].pc.ExLk? || s.procs[p].pc.ExRel? || s.procs[p].pc.ExOff?)
    ensures |GoExit(s, p).procs| == |s.procs| && Moved(s, p, s.procs[p], GoExit(s, p).procs[p])
  {
  }

  lemma MovedScan(s: State, p: Pid)
    requires CanGo(s, p) && s.procs[p].pc.Scan?
    ensures |GoWait(s, p).procs| == |s.procs| && Moved(s, p, s.procs[p], GoWait(s, p).procs[p])
  {
  }

  lemma MovedScanAt(s: State, p: Pid)
    requires CanGo(s, p) && ScanPc(s.procs[p].pc) && !s.procs[p].pc.Scan?
    requires !(s.procs[p].pc.ScanAt? && s.procs[s.procs[p].pc.i].st == Zombie)
    ensures |GoWait(s, p).procs| == |s.procs| && Moved(s, p, s.procs[p], GoWait(s, p).procs[p])
  {
  }

  lemma MovedSleepA(s: State, p: Pid)
    requires CanGo(s, p)
    requires (s.procs[p].pc.SlLk? || s.procs[p].pc.SlRel? || s.procs[p].pc.SlChan? || s.procs[p].pc.SlMark?)
    ensures |GoWait(s, p).procs| == |s.procs| && Moved(s, p, s.procs[p], GoWait(s, p).procs[p])
  {
  }

  lemma MovedSleepB(s: State, p: Pid)
    requires CanGo(s, p)
    requires (s.procs[p].pc.SlOff? || s.procs[p].pc.Parked? || s.procs[p].pc.Woken? || s.procs[p].pc.SlBack?)
    ensures |GoWait(s, p).procs| == |s.procs| && Moved(s, p, s.procs[p], GoWait(s, p).procs[p])
  {
  }

  lemma MovedOther(s: State, a: Action)
    requires Enabled(s, a) && !a.Fork? && !a.ForkFail? && (a.Go? ==> s.procs[a.p].pc.KillAt?)
    ensures |Next(s, a).procs| == |s.procs| && Moved(s, a.p, s.procs[a.p], Next(s, a).procs[a.p])
  {
    hide GoFork, GoExit, GoWait;
  }

  lemma MovedStep(s: State, a: Action)
    requires StatesOk(s) && Enabled(s, a) && !Special(s, a)
    ensures |Next(s, a).procs| == |s.procs| && Moved(s, a.p, s.procs[a.p], Next(s, a).procs[a.p])
  {
    assert StateOk(a.p, s.procs[a.p]);
    hide GoFork, GoExit, GoWait, StatesOk, StateOk, Moved;
    var pc := s.procs[a.p].pc;
    if !a.Go? || pc.KillAt? {
      MovedOther(s, a);
    } else if ForkPc(pc) {
      MovedFork(s, a.p);
    } else if RepPc(pc) {
      MovedRep(s, a.p);
    } else if pc.ExitLk? || pc.ExWake? || pc.ExWakeAt? {
      MovedExit(s, a.p);
    } else if ExitPc(pc) {
      MovedExitEnd(s, a.p);
    } else if pc.Scan? {
      MovedScan(s, a.p);
    } else if ScanPc(pc) {
      MovedScanAt(s, a.p);
    } else if pc.SlLk? || pc.SlRel? || pc.SlChan? || pc.SlMark? {
      MovedSleepA(s, a.p);
    } else {
      MovedSleepB(s, a.p);
    }
  }

  ghost predicate MakersOk(s: State) {
    forall q :: 0 <= q < |s.procs| ==> MakerOk(s, q)
  }

  /** USED slots and forks in progress are as before. */
  lemma MakersKept(s: State, s': State, p: Pid)
    requires MakersOk(s) && |s'.procs| == |s.procs| && p < |s.procs|
    requires forall q :: 0 <= q < |s.procs| ==> (s'.procs[q].st == Used <==> s.procs[q].st == Used)
    requires forall q :: 0 <= q < |s.procs| && s.procs[q].st == Used ==>
               s'.procs[q].parent == s.procs[q].parent && s'.procs[q].maker == s.procs[q].maker
    requires forall q :: 0 <= q < |s.procs| && q != p ==> InFork(s'.procs[q].pc) == InFork(s.procs[q].pc)
    requires forall q :: 0 <= q < |s.procs| && q != p && InFork(s.procs[q].pc) ==> s'.procs[q].pc == s.procs[q].pc
    requires var pc, pc' := s.procs[p].pc, s'.procs[p].pc;
             && InFork(pc) == InFork(pc') && (InFork(pc) ==> pc'.np == pc.np && EarlyFork(pc') == EarlyFork(pc))
    ensures MakersOk(s')
  {
    forall q | 0 <= q < |s'.procs| ensures MakerOk(s', q) {
      assert MakerOk(s, q);
    }
  }

  lemma MakersQuiet(s: State, a: Action)
    requires StatesOk(s) && Enabled(s, a) && !Special(s, a)
    ensures MakersOk(Next(s, a))
  {
    QuietStep(s, a);
    MovedStep(s, a);
    assert MakersOk(s);
    hide GoFork, GoExit, GoWait, Next, StatesOk, MakersOk, InFork, Special;
    MakersKept(s, Next(s, a), a.p);
  }

  /** What a step of fork does to the forking process and to the slot. */
  lemma ForkFields(s: State, a: Action)
    requires Enabled(s, a)
    requires (a.Fork? || a.ForkFail? || (a.Go? && (s.procs[a.p].pc.ForkSet? || s.procs[a.p].pc.ForkMark?)))
    requires Slot(s, a) != a.p
    ensures var s', p, np := Next(s, a), a.p, Slot(s, a);
            && |s'.procs| == |s.procs|
            && (forall q :: 0 <= q < |s.procs| && q != p && q != np ==> s'.procs[q] == s.procs[q])
            && s'.procs[p].st == s.procs[p].st && s'.procs[p].parent == s.procs[p].parent
            && s'.procs[p].maker == s.procs[p].maker
            && s'.procs[p].pc == (if a.Fork? then ForkInit(np) else if a.Go?
               && s.procs[p].pc.ForkSet? then ForkRel(np) else Run)
            && s'.procs[np].maker == (if a.Fork? then p else s.procs[np].maker)
            && s'.procs[np].st == (if a.Fork? then Used else if a.ForkFail? then Unused
               else if s.procs[p].pc.ForkSet? then s.procs[np].st else Runnable)
            && s'.procs[np].parent == (if a.ForkFail? then NoParent else if a.Go?
               && s.procs[p].pc.ForkSet? then Par(p) else s.procs[np].parent)
            && s'.procs[np].pc == (if a.ForkFail? then Off else if a.Go? && s.procs[p].pc.ForkMark? then NewBorn
               else s.procs[np].pc)
  {
    hide GoExit, GoWait;
  }

  lemma MakersFork(s: State, a: Action)
    requires StatesOk(s) && Enabled(s, a)
    requires a.Fork? || a.ForkFail? || (a.Go? && (s.procs[a.p].pc.ForkSet? || s.procs[a.p].pc.ForkMark?))
    ensures |Next(s, a).procs| == |s.procs| && MakersOk(Next(s, a))
  {
    hide Next, StateOk, StatesOk;
    SlotOff(s, a);
    SlotMade(s, a);
    ForkFields(s, a);
    var s' := Next(s, a);
    AllMakers(s);
    forall q | 0 <= q < |s'.procs| ensures MakerOk(s', q) {
      assert MakerOk(s, q);
    }
  }

  lemma AllMakers(s: State)
    requires StatesOk(s)
    ensures MakersOk(s)
  {
  }

  /** Before the step, the slot is the forking process's, or nobody's. */
  lemma SlotMade(s: State, a: Action)
    requires StatesOk(s) && Enabled(s, a)
    requires a.Fork? || a.ForkFail? || (a.Go? && (s.procs[a.p].pc.ForkSet? || s.procs[a.p].pc.ForkMark?))
    ensures a.p < |s.procs| && Slot(s, a) < |s.procs|
    ensures if a.Fork? then s.procs[a.p].pc == Run && s.procs[Slot(s, a)].st == Unused
            else s.procs[a.p].pc.np == Slot(s, a) && s.procs[Slot(s, a)].st == Used && s.procs[Slot(s, a)].maker == a.p
    ensures a.ForkFail? ==> s.procs[a.p].pc.ForkInit?
    ensures a.Fork? ==> s.procs[Slot(s, a)].parent == NoParent && s.procs[a.p].st == Running
    ensures !a.Fork? ==> s.procs[a.p].st == Running && InFork(s.procs[a.p].pc)
    ensures a.Go? && s.procs[a.p].pc.ForkSet? ==> s.procs[Slot(s, a)].parent == NoParent
    ensures a.Go? && s.procs[a.p].pc.ForkMark? ==> s.procs[Slot(s, a)].parent == Par(a.p)
  {
    hide Next;
    var np := Slot(s, a);
    if !a.Fork? {
      ForkSlot(s, a.p);
    }
    assert MakerOk(s, np) && StateOk(np, s.procs[np]) && StateOk(a.p, s.procs[a.p]);
  }

  lemma MakersExit(s: State, p: Pid)
    requires StatesOk(s) && CanGo(s, p)
    requires s.procs[p].pc.ExMark?
             || (s.procs[p].pc.Rep? && s.procs[p].pc.i < |s.procs| && s.procs[s.procs[p].pc.i].parent == Par(p))
    ensures MakersOk(GoExit(s, p))
  {
    forall q | 0 <= q < |s.procs| && s.procs[q].st == Used ensures s.procs[q].parent != Par(p) {
      assert MakerOk(s, q);
    }
    assert MakersOk(s);
    assert StateOk(p, s.procs[p]);
    hide StatesOk, MakersOk, StateOk;
    MakersKept(s, GoExit(s, p), p);
  }

  lemma MakersFree(s: State, p: Pid)
    requires StatesOk(s) && LocksMatch(s) && CanGo(s, p) && s.procs[p].pc.ScanAt?
    requires s.procs[s.procs[p].pc.i].st == Zombie
    ensures MakersOk(GoWait(s, p))
  {
    hide MakersOk, LocksMatch, GoWait, CanGo, StateOk, StatesOk;
    FreesDead(s, p);
    AllMakers(s);
    MakersKept(s, GoWait(s, p), p);
  }

  predicate Alive(pc: PC) {
    !ExitPc(pc) && pc != Dead && pc != Off
  }

  lemma MoverLives(s: State, a: Action)
    requires Enabled(s, a) && Alive(s.procs[a.p].pc) && !a.Exit?
    requires a.ForkFail? || (a.Go? && s.procs[a.p].pc.ForkMark?) ==> s.procs[a.p].pc.np != a.p
    requires a.Go? && s.procs[a.p].pc.ScanAt? ==> s.procs[a.p].pc.i == a.p ==> s.procs[a.p].st != Zombie
    ensures |Next(s, a).procs| == |s.procs| && Alive(Next(s, a).procs[a.p].pc)
  {
    hide GoExit, GoFork, GoWait;
    if a.Go? && ForkPc(s.procs[a.p].pc) {
      ForkLives(s, a.p);
    } else if a.Go? && !s.procs[a.p].pc.KillAt? {
      WaitLives(s, a.p);
    }
  }

  lemma ForkLives(s: State, p: Pid)
    requires CanGo(s, p) && ForkPc(s.procs[p].pc) && (s.procs[p].pc.ForkMark? ==> s.procs[p].pc.np != p)
    ensures |GoFork(s, p).procs| == |s.procs| && Alive(GoFork(s, p).procs[p].pc)
  {
    hide GoExit, GoWait;
  }

  lemma WaitLives(s: State, p: Pid)
    requires CanGo(s, p) && Alive(s.procs[p].pc)
    requires (s.procs[p].pc.ScanAt? ==> s.procs[p].pc.i == p ==> s.procs[p].st != Zombie)
    ensures |GoWait(s, p).procs| == |s.procs| && Alive(GoWait(s, p).procs[p].pc)
  {
    hide GoExit, GoFork;
  }

  lemma OthersLive(s: State, a: Action, q: Pid)
    requires StatesOk(s) && LocksMatch(s) && Enabled(s, a) && q < |s.procs| && q != a.p && Alive(s.procs[q].pc)
    ensures |Next(s, a).procs| == |s.procs| && Alive(Next(s, a).procs[q].pc)
  {
    if !Special(s, a) {
      hide Next, StatesOk, LocksMatch, ExitPc;
      QuietStep(s, a);
    } else {
      hide StatesOk, LocksMatch, GoFork, GoExit, GoWait;
      SpecialOthersLive(s, a, q);
    }
  }

  lemma SpecialOthersLive(s: State, a: Action, q: Pid)
    requires StatesOk(s) && LocksMatch(s) && Enabled(s, a) && q < |s.procs| && q != a.p && Alive(s.procs[q].pc)
    requires Special(s, a)
    ensures |Next(s, a).procs| == |s.procs| && Alive(Next(s, a).procs[q].pc)
  {
    hide StatesOk, LocksMatch, Alive, GoFork, GoExit, GoWait;
    var pc := s.procs[a.p].pc;
    if a.Fork? || a.ForkFail? || pc.ForkSet? || pc.ForkMark? {
      ForkOthersLive(s, a, q);
    } else if pc.ScanAt? {
      FreeOthersLive(s, a.p, q);
    } else {
      ExitOthersLive(s, a.p, q);
    }
  }

  lemma ForkOthersLive(s: State, a: Action, q: Pid)
    requires StatesOk(s) && Enabled(s, a) && q < |s.procs| && q != a.p && Alive(s.procs[q].pc)
    requires a.Fork? || a.ForkFail? || (a.Go? && (s.procs[a.p].pc.ForkSet? || s.procs[a.p].pc.ForkMark?))
    ensures |Next(s, a).procs| == |s.procs| && Alive(Next(s, a).procs[q].pc)
  {
    if InFork(s.procs[a.p].pc) { ForkSlot(s, a.p); }
    hide GoExit, GoWait, StatesOk;
  }

  lemma FreeOthersLive(s: State, p: Pid, q: Pid)
    requires StatesOk(s) && LocksMatch(s) && CanGo(s, p) && q < |s.procs| && q != p && Alive(s.procs[q].pc)
    requires s.procs[p].pc.ScanAt? && s.procs[s.procs[p].pc.i].st == Zombie
    ensures |GoWait(s, p).procs| == |s.procs| && Alive(GoWait(s, p).procs[q].pc)
  {
    hide LocksMatch, StatesOk, GoWait, CanGo;
    FreesDead(s, p);
  }

  lemma ExitOthersLive(s: State, p: Pid, q: Pid)
    requires CanGo(s, p) && (s.procs[p].pc.Rep? || s.procs[p].pc.ExMark?) && q < |s.procs| && q != p
    requires Alive(s.procs[q].pc)
    ensures |GoExit(s, p).procs| == |s.procs| && Alive(GoExit(s, p).procs[q].pc)
  {
  }

  lemma InitLives(s: State, a: Action)
    requires StatesOk(s) && LocksMatch(s) && Enabled(s, a) && |s.procs| > INIT
    ensures |Next(s, a).procs| == |s.procs| && Alive(Next(s, a).procs[INIT].pc)
  {
    hide GoFork, GoExit, GoWait, LocksMatch;
    var pc := s.procs[a.p].pc;
    if a.p == INIT {
      if InFork(pc) {
        ForkSlot(s, a.p);
      }
      assert StateOk(INIT, s.procs[INIT]);
      MoverLives(s, a);
    } else {
      OthersLive(s, a, INIT);
    }
  }

  lemma StatesStep(s: State, a: Action)
    requires LocksMatch(s) && StatesOk(s) && Enabled(s, a)
    ensures StatesOk(Next(s, a))
  {
    var s' := Next(s, a);
    hide GoFork, GoExit, GoWait, LocksMatch;
    if |s.procs| > INIT {
      InitLives(s, a);
    }
    assert MakersOk(s') by {
      hide StatesOk, MakersOk;
      MakersStep(s, a);
    }
    forall q | 0 <= q < |s.procs| ensures |s'.procs| == |s.procs| && StateOk(q, s'.procs[q]) {
      hide StatesOk, StateOk;
      StateOkStep(s, a, q);
    }
  }

  lemma MakersStep(s: State, a: Action)
    requires LocksMatch(s) && StatesOk(s) && Enabled(s, a)
    ensures MakersOk(Next(s, a))
  {
    hide GoFork, GoExit, GoWait, LocksMatch, StatesOk, MakersOk;
    if !Special(s, a) {
      MakersQuiet(s, a);
    } else if a.Fork? || a.ForkFail? || s.procs[a.p].pc.ForkSet? || s.procs[a.p].pc.ForkMark? {
      MakersFork(s, a);
    } else if ExitPc(s.procs[a.p].pc) {
      MakersExit(s, a.p);
    } else {
      MakersFree(s, a.p);
    }
  }

  // ---- Parents: steps ----

  lemma ParentsQuiet(s: State, a: Action)
    requires StatesOk(s) && ParentsOk(s) && Enabled(s, a) && !Special(s, a)
    ensures ParentsOk(Next(s, a))
  {
    hide Next, StatesOk, Childless, Passed, Special;
    QuietStep(s, a);
    MovedStep(s, a);
    RepQuiet(s, a);
    var s', pc := Next(s, a), s.procs[a.p].pc;
    forall c | 0 <= c < |s'.procs| ensures ParentOk(s', c) {
      assert ParentOk(s, c);
      var p := s.procs[c].parent;
      if p.Par? && p.q == a.p {
        RepPassed(pc);
      }
    }
  }

  lemma RepQuiet(s: State, a: Action)
    requires Enabled(s, a) && !Special(s, a)
    ensures var pc := s.procs[a.p].pc; pc.Rep? && pc.i < |s.procs| ==> s.procs[pc.i].parent != Par(a.p)
  {
    hide GoFork, GoExit, GoWait;
  }

  lemma RepPassed(pc: PC)
    ensures pc.Rep? ==> Passed(pc) == pc.i
  {
  }

  /** fork gives the new slot its maker as parent; a failed fork frees the slot. */
  lemma ParentsFork(s: State, a: Action)
    requires StatesOk(s) && ParentsOk(s) && Enabled(s, a)
    requires a.Fork? || a.ForkFail? || (a.Go? && (s.procs[a.p].pc.ForkSet? || s.procs[a.p].pc.ForkMark?))
    ensures ParentsOk(Next(s, a))
  {
    hide Next, StateOk, StatesOk;
    SlotOff(s, a);
    SlotMade(s, a);
    ForkFields(s, a);
    InitAlive(s);
    var s' := Next(s, a);
    forall c | 0 <= c < |s'.procs| ensures ParentOk(s', c) {
      assert ParentOk(s, c);
    }
  }

  lemma InitAlive(s: State)
    requires StatesOk(s)
    ensures |s.procs| > INIT ==> Alive(s.procs[INIT].pc) && s.procs[INIT].pc != Off
  {
  }

  /** reparent hands child i to initproc. */
  lemma ParentsRep(s: State, p: Pid)
    requires StatesOk(s) && ParentsOk(s) && CanGo(s, p)
    requires s.procs[p].pc.Rep? && s.procs[p].pc.i < |s.procs| && s.procs[s.procs[p].pc.i].parent == Par(p)
    ensures ParentsOk(GoExit(s, p))
  {
    assert Alive(s.procs[INIT].pc);
    hide StatesOk;
    var s', i := GoExit(s, p), s.procs[p].pc.i;
    assert ParentOk(s, i);
    forall c | 0 <= c < |s'.procs| ensures ParentOk(s', c) {
      assert ParentOk(s, c);
    }
  }

  lemma ParentsMark(s: State, p: Pid)
    requires StatesOk(s) && ParentsOk(s) && CanGo(s, p) && s.procs[p].pc.ExMark?
    ensures ParentsOk(GoExit(s, p))
  {
    assert StateOk(p, s.procs[p]);
    hide StatesOk;
    var s' := GoExit(s, p);
    forall c | 0 <= c < |s'.procs| ensures ParentOk(s', c) {
      assert ParentOk(s, c);
    }
  }

  /** A zombie has no children left when it is freed. */
  lemma ParentsFree(s: State, p: Pid)
    requires StatesOk(s) && LocksMatch(s) && ParentsOk(s) && CanGo(s, p)
    requires s.procs[p].pc.ScanAt? && s.procs[s.procs[p].pc.i].st == Zombie
    ensures ParentsOk(GoWait(s, p))
  {
    hide StatesOk, LocksMatch, GoWait, CanGo;
    FreesDead(s, p);
    var s' := GoWait(s, p);
    forall c | 0 <= c < |s'.procs| ensures ParentOk(s', c) {
      assert ParentOk(s, c);
    }
  }

  lemma ParentsStep(s: State, a: Action)
    requires LocksMatch(s) && StatesOk(s) && ParentsOk(s) && Enabled(s, a)
    ensures ParentsOk(Next(s, a))
  {
    hide GoFork, GoExit, GoWait, LocksMatch, StatesOk, ParentsOk;
    if !Special(s, a) {
      ParentsQuiet(s, a);
    } else if a.Fork? || a.ForkFail? || s.procs[a.p].pc.ForkSet? || s.procs[a.p].pc.ForkMark? {
      ParentsFork(s, a);
    } else if s.procs[a.p].pc.Rep? {
      ParentsRep(s, a.p);
    } else if s.procs[a.p].pc.ExMark? {
      ParentsMark(s, a.p);
    } else {
      ParentsFree(s, a.p);
    }
  }

  // ---- Pids: steps ----

  lemma PidsKept(s: State, s': State)
    requires PidsOk(s) && |s'.procs| == |s.procs| && s'.nextPid == s.nextPid && s'.exited == s.exited
    requires s'.reaped == s.reaped
    requires forall q :: 0 <= q < |s.procs| ==>
               var pr, pr' := s.procs[q], s'.procs[q];
               pr'.pid == pr.pid && (pr'.st == Unused <==> pr.st == Unused) && (pr'.st == Zombie <==> pr.st == Zombie)
    ensures PidsOk(s')
  {
  }

  lemma PidsFork(s: State, p: Pid, np: Pid)
    requires PidsOk(s) && Enabled(s, Fork(p, np))
    ensures PidsOk(Next(s, Fork(p, np)))
  {
    hide GoFork, GoExit, GoWait;
  }

  lemma PidsForkFail(s: State, p: Pid)
    requires PidsOk(s) && StatesOk(s) && Enabled(s, ForkFail(p))
    ensures PidsOk(Next(s, ForkFail(p)))
  {
    hide GoFork, GoExit, GoWait, StatesOk;
    ForkSlot(s, p);
  }

  lemma PidsMark(s: State, p: Pid)
    requires PidsOk(s) && StatesOk(s) && CanGo(s, p) && s.procs[p].pc.ExMark?
    ensures PidsOk(GoExit(s, p))
  {
    assert StateOk(p, s.procs[p]);
    hide StatesOk;
  }

  /** freeproc takes the zombie's pid out of the table as wait returns it. */
  lemma PidsFree(s: State, p: Pid)
    requires PidsOk(s) && StatesOk(s) && LocksMatch(s) && CanGo(s, p)
    requires s.procs[p].pc.ScanAt? && s.procs[s.procs[p].pc.i].st == Zombie
    ensures PidsOk(GoWait(s, p))
  {
    hide StatesOk, LocksMatch, GoWait, CanGo;
    FreesDead(s, p);
  }

  lemma PidsSame(s: State, a: Action)
    requires PidsOk(s) && StatesOk(s) && Enabled(s, a)
    requires a.Go? && (s.procs[a.p].pc.ForkSet? || s.procs[a.p].pc.ForkMark? || s.procs[a.p].pc.Rep?)
    ensures PidsOk(Next(s, a))
  {
    hide GoWait, GoExit, GoFork, StatesOk, PidsOk;
    if InFork(s.procs[a.p].pc) {
      ForkSlot(s, a.p);
      PidsForkGo(s, a.p);
    } else {
      PidsRep(s, a.p);
    }
  }

  lemma PidsForkGo(s: State, p: Pid)
    requires PidsOk(s) && CanGo(s, p) && (s.procs[p].pc.ForkSet? || s.procs[p].pc.ForkMark?)
    requires var np := s.procs[p].pc.np; np < |s.procs| && np != p && s.procs[np].st == Used
    ensures PidsOk(GoFork(s, p))
  {
    hide PidsOk;
    PidsKept(s, GoFork(s, p));
  }

  lemma PidsRep(s: State, p: Pid)
    requires PidsOk(s) && CanGo(s, p) && s.procs[p].pc.Rep?
    ensures PidsOk(GoExit(s, p))
  {
    hide PidsOk;
    PidsKept(s, GoExit(s, p));
  }

  lemma PidsStep(s: State, a: Action)
    requires LocksMatch(s) && StatesOk(s) && PidsOk(s) && Enabled(s, a)
    ensures PidsOk(Next(s, a))
  {
    hide GoFork, GoExit, GoWait, StatesOk, LocksMatch, PidsOk;
    var pc := s.procs[a.p].pc;
    if !Special(s, a) {
      hide Next;
      QuietStep(s, a);
      PidsKept(s, Next(s, a));
    } else if a.Fork? {
      PidsFork(s, a.p, a.np);
    } else if a.ForkFail? {
      PidsForkFail(s, a.p);
    } else if pc.ForkSet? || pc.ForkMark? || pc.Rep? {
      PidsSame(s, a);
    } else if pc.ExMark? {
      PidsMark(s, a.p);
    } else {
      PidsFree(s, a.p);
    }
  }

  // ---- Waiting parents: steps ----

  /** q gains no zombie child. */
  ghost predicate NoNewZombie(s: State, s': State, q: Pid)
    requires |s'.procs| == |s.procs|
  {
    forall c :: 0 <= c < |s.procs| && s'.procs[c].parent == Par(q) && s'.procs[c].st == Zombie ==>
      s.procs[c].parent == Par(q) && s.procs[c].st == Zombie
  }

  lemma NoZombieKept(s: State, s': State, q: Pid, bound: nat)
    requires |s'.procs| == |s.procs| && NoNewZombie(s, s', q) && NoZombieChild(s, q, bound)
    ensures NoZombieChild(s', q, bound)
  {
  }

  predicate Exiting(pc: PC) {
    pc.ExWake? || pc.ExWakeAt? || pc.ExLk? || pc.ExMark?
  }

  /** Neither waiting, nor scanning, nor waking its parent. */
  predicate Uninvolved(pr: Proc) {
    && !Waiting(pr) && !pr.pc.Scan? && !pr.pc.ScanAt? && !pr.pc.SlLk? && !pr.pc.SlRel? && !Exiting(pr.pc)
  }

  lemma UninvolvedOk(s: State, q: Pid)
    requires q < |s.procs| && Uninvolved(s.procs[q])
    ensures WaitOk(s, q)
  {
  }

  /** q stands by while p moves. */
  lemma WaitOther(s: State, s': State, q: Pid)
    requires |s'.procs| == |s.procs| && q < |s.procs| && WaitOk(s, q) && NoNewZombie(s, s', q)
    requires Bystander(s.procs[q], s'.procs[q])
    requires Waiting(s'.procs[q]) && q == INIT && InitWakeComing(s) ==> InitWakeComing(s')
    requires Exiting(s.procs[q].pc) ==>
               && s'.procs[q].parent == s.procs[q].parent
               && forall r :: 0 <= r < |s.procs| && s.procs[q].parent == Par(r) && Waiting(s'.procs[r]) ==>
                  Waiting(s.procs[r])
    ensures WaitOk(s', q)
  {
    hide NoZombieChild, NoNewZombie, InitWakeComing;
    var pr, n := s.procs[q], |s.procs|;
    if NoZombieChild(s, q, n) { NoZombieKept(s, s', q, n); }
    if pr.pc.Scan? || pr.pc.ScanAt? { NoZombieKept(s, s', q, pr.pc.i); }
  }

  lemma WakeHolder(s: State, q: Pid)
    requires LocksMatch(s) && q < |s.procs| && HoldsWl(s.procs[q].pc)
    ensures s.wl == Held(q)
  {
  }

  /** wait_lock is only taken when free and only dropped by its holder. */
  lemma WlMoves(s: State, a: Action)
    requires LocksMatch(s) && Enabled(s, a)
    ensures s.wl.Held? && s.wl.p != a.p ==> Next(s, a).wl == s.wl
  {
    var p := a.p;
    assert s.wl == Held(p) <==> HoldsWl(s.procs[p].pc);
    hide LocksMatch;
    if s.wl.Held? && s.wl.p != p {
      if a.Go? && ForkPc(s.procs[p].pc) {
        hide GoExit, GoWait;
      } else if a.Go? && ExitPc(s.procs[p].pc) {
        hide GoFork, GoWait;
      } else if a.Go? && WaitPc(s.procs[p].pc) {
        hide GoFork, GoExit;
      } else {
        hide GoFork, GoExit, GoWait;
      }
    }
  }

  /** The step of wakeup at process j leaves j not waiting for its own channel. */
  lemma RousedNotWaiting(s: State, p: Pid, j: Pid, chan: Chan)
    requires LocksMatch(s) && p < |s.procs| && j < |s.procs| && HoldsLk(s.procs[p].pc, p, j)
    requires s.procs[p].pc.RepWakeAt? || s.procs[p].pc.ExWakeAt?
    requires StateOk(j, s.procs[j]) && chan == OnProc(j)
    ensures !Waiting(Roused(s.procs[j], chan))
  {
    LockedOut(s, p, j);
  }

  /** The wakeup of initproc is still to come, or has just happened. */
  lemma InitWakeStays(s: State, a: Action)
    requires LocksMatch(s) && StatesOk(s) && Enabled(s, a) && !Special(s, a) && InitWakeComing(s) && |s.procs| > INIT
    requires a.p != INIT
    ensures |Next(s, a).procs| == |s.procs|
    ensures Waiting(Next(s, a).procs[INIT]) ==> InitWakeComing(Next(s, a))
  {
    QuietStep(s, a);
    MovedStep(s, a);
    WlMoves(s, a);
    var h := s.wl.p;
    if h == a.p {
      assert StateOk(INIT, s.procs[INIT]);
      assert s.wl == Held(h) <==> HoldsWl(s.procs[h].pc);
      InitWakeMoves(s, a);
    } else {
      hide Next, StatesOk, LocksMatch;
    }
  }

  lemma InitWakeMoves(s: State, a: Action)
    requires LocksMatch(s) && Enabled(s, a) && InitWakeComing(s) && |s.procs| > INIT && a.p != INIT
    requires s.wl == Held(a.p) && StateOk(INIT, s.procs[INIT]) && !Special(s, a)
    ensures |Next(s, a).procs| == |s.procs|
    ensures Waiting(Next(s, a).procs[INIT]) ==> InitWakeComing(Next(s, a))
  {
    var pc := s.procs[a.p].pc;
    if pc.RepWakeAt? {
      RousedNotWaiting(s, a.p, INIT, OnProc(INIT));
    }
    hide LocksMatch, GoFork, GoWait;
  }

  lemma BystanderWaiting(pr: Proc, pr': Proc)
    requires Bystander(pr, pr')
    ensures Waiting(pr') ==> Waiting(pr)
  {
  }

  lemma QuietStander(s: State, a: Action, q: Pid)
    requires LocksMatch(s) && StatesOk(s) && WaitsOk(s) && Enabled(s, a) && !Special(s, a) && q < |s.procs| && q != a.p
    ensures |Next(s, a).procs| == |s.procs| && WaitOk(Next(s, a), q)
  {
    QuietStep(s, a);
    MovedStep(s, a);
    var s', pr := Next(s, a), s.procs[q];
    assert WaitOk(s, q);
    if q == INIT && InitWakeComing(s) && a.p != INIT {
      InitWakeStays(s, a);
    }
    if Exiting(pr.pc) {
      WakeHolder(s, q);
    }
    assert s.wl == Held(a.p) <==> HoldsWl(s.procs[a.p].pc);
    assert s.procs[a.p].pc.SlRel? ==> HoldsWl(s.procs[a.p].pc);
    hide Next, LocksMatch, StatesOk, WaitsOk, WaitOk, HoldsWl, Special, Enabled, InitWakeComing;
    forall r | 0 <= r < |s.procs| && r != a.p && Waiting(s'.procs[r]) ensures Waiting(s.procs[r]) {
      BystanderWaiting(s.procs[r], s'.procs[r]);
    }
    WaitOther(s, s', q);
  }

  lemma QuietMover(s: State, a: Action)
    requires LocksMatch(s) && StatesOk(s) && ParentsOk(s) && WaitsOk(s) && Enabled(s, a) && !Special(s, a)
    ensures |Next(s, a).procs| == |s.procs| && WaitOk(Next(s, a), a.p)
  {
    QuietStep(s, a);
    MovedStep(s, a);
    WlMoves(s, a);
    var s', p, n := Next(s, a), a.p, |s.procs|;
    assert WaitOk(s, p) && ParentOk(s, p);
    assert s.wl == Held(p) <==> HoldsWl(s.procs[p].pc);
    if s.procs[p].pc.ExWakeAt? && s.procs[p].parent == Par(s.procs[p].pc.j) && a.Go? {
      ParentRoused(s, p);
    }
    assert s.procs[p].pc.ExWakeAt? ==> a.Go?;
    hide Next, LocksMatch, StatesOk, WaitsOk, ParentsOk, Special, Enabled;
    var pr, pr' := s.procs[p], s'.procs[p];
    forall b: nat | NoZombieChild(s, p, b) ensures NoZombieChild(s', p, b) {
      NoZombieKept(s, s', p, b);
    }
    MoverWaitOk(s, s', p);
  }

  /** exit's wakeup has reached p's parent: it is no longer waiting. */
  lemma ParentRoused(s: State, p: Pid)
    requires LocksMatch(s) && StatesOk(s) && CanGo(s, p) && s.procs[p].pc.ExWakeAt?
    requires s.procs[p].parent == Par(s.procs[p].pc.j)
    requires s.procs[p].pc.j != p
    ensures |Next(s, Go(p)).procs| == |s.procs| && !Waiting(Next(s, Go(p)).procs[s.procs[p].pc.j])
  {
    var j := s.procs[p].pc.j;
    assert StateOk(j, s.procs[j]);
    RousedNotWaiting(s, p, j, OnProc(j));
    hide LocksMatch, StatesOk, GoFork, GoWait;
  }

  lemma MoverWaitOk(s: State, s': State, p: Pid)
    requires |s'.procs| == |s.procs| && p < |s.procs| && WaitOk(s, p) && ParentOk(s, p)
    requires Moved(s, p, s.procs[p], s'.procs[p]) && s'.procs[p].parent == s.procs[p].parent
    requires forall b: nat :: NoZombieChild(s, p, b) ==> NoZombieChild(s', p, b)
    requires forall c :: 0 <= c < |s.procs| ==> SameBirth(s.procs[c], s'.procs[c])
    requires forall q :: 0 <= q < |s.procs| && q != p ==> Bystander(s.procs[q], s'.procs[q])
    requires s.wl == Held(p) <==> HoldsWl(s.procs[p].pc)
    requires s.wl.Held? && s.wl.p != p ==> s'.wl == s.wl
    requires s.procs[p].pc.ExWakeAt? && s.procs[p].parent == Par(s.procs[p].pc.j) && s.procs[p].pc.j < |s.procs| ==>
               !Waiting(s'.procs[s.procs[p].pc.j])
    ensures WaitOk(s', p)
  {
  }

  lemma SameInitWake(s: State, s': State)
    requires InitWakeComing(s) && |s'.procs| == |s.procs| && s'.wl == s.wl && s'.procs[s.wl.p].pc == s.procs[s.wl.p].pc
    ensures InitWakeComing(s')
  {
  }

  /** Only p and c, neither of which ends up involved, have changed. */
  lemma WaitsPair(s: State, s': State, p: Pid, c: Pid)
    requires WaitsOk(s) && |s'.procs| == |s.procs| && p < |s.procs| && c < |s.procs|
    requires forall q :: 0 <= q < |s.procs| && q != p && q != c ==> s'.procs[q] == s.procs[q]
    requires Uninvolved(s'.procs[p]) && Uninvolved(s'.procs[c])
    requires forall q :: 0 <= q < |s.procs| ==> NoNewZombie(s, s', q)
    requires InitWakeComing(s) ==> InitWakeComing(s')
    ensures WaitsOk(s')
  {
    hide NoNewZombie, InitWakeComing, WaitOk;
    forall q | 0 <= q < |s'.procs| ensures WaitOk(s', q) {
      if q == p || q == c {
        UninvolvedOk(s', q);
      } else {
        assert WaitOk(s, q);
        WaitOther(s, s', q);
      }
    }
  }

  /** The slot a fork step makes, sets up or gives up. */
  function Slot(s: State, a: Action): Pid
    requires Enabled(s, a) && (a.Fork? || InFork(s.procs[a.p].pc))
  {
    if a.Fork? then a.np else s.procs[a.p].pc.np
  }

  lemma ForkChange(s: State, a: Action)
    requires Enabled(s, a)
    requires (a.Fork? || a.ForkFail? || (a.Go? && (s.procs[a.p].pc.ForkSet? || s.procs[a.p].pc.ForkMark?)))
    requires Slot(s, a) != a.p && s.procs[Slot(s, a)].pc == Off
    requires (s.procs[Slot(s, a)].st == Used || s.procs[Slot(s, a)].st == Unused)
    ensures var s', p, np := Next(s, a), a.p, Slot(s, a);
            && |s'.procs| == |s.procs| && s'.wl == s.wl && s'.exited == s.exited && s'.reaped == s.reaped
            && (forall q :: 0 <= q < |s.procs| && q != p && q != np ==> s'.procs[q] == s.procs[q])
            && Uninvolved(s'.procs[p]) && Uninvolved(s'.procs[np]) && s'.procs[np].st != Zombie
            && s'.procs[p].st == s.procs[p].st && s'.procs[p].parent == s.procs[p].parent
            && s'.procs[p].pid == s.procs[p].pid
            && (a.ForkFail? ==> s'.procs[np].parent == NoParent)
            && (!a.ForkFail? && !s.procs[p].pc.ForkSet? ==> s'.procs[np].parent == s.procs[np].parent)
  {
    hide GoExit, GoWait;
  }

  lemma SlotOff(s: State, a: Action)
    requires StatesOk(s) && Enabled(s, a) && (a.Fork? || InFork(s.procs[a.p].pc))
    ensures Slot(s, a) != a.p && s.procs[Slot(s, a)].pc == Off
    ensures s.procs[Slot(s, a)].st == Used || s.procs[Slot(s, a)].st == Unused
    ensures a.ForkFail? ==> s.procs[Slot(s, a)].parent == NoParent
  {
    var p, np := a.p, Slot(s, a);
    assert MakerOk(s, p) && MakerOk(s, np) && StateOk(p, s.procs[p]) && StateOk(np, s.procs[np]);
  }

  lemma WaitsFork(s: State, a: Action)
    requires LocksMatch(s) && StatesOk(s) && WaitsOk(s) && Enabled(s, a)
    requires a.Fork? || a.ForkFail? || (a.Go? && (s.procs[a.p].pc.ForkSet? || s.procs[a.p].pc.ForkMark?))
    ensures WaitsOk(Next(s, a))
  {
    hide StatesOk, LocksMatch, WaitsOk, Next, Uninvolved;
    SlotOff(s, a);
    ForkChange(s, a);
    var s', p, np := Next(s, a), a.p, Slot(s, a);
    if InitWakeComing(s) {
      assert s.wl.p != p by { HolderOf(s); }
      SameInitWake(s, s');
    }
    hide InitWakeComing, Enabled, Slot;
    WaitsPair(s, s', p, np);
  }

  lemma HolderOf(s: State)
    requires LocksMatch(s) && s.wl.Held?
    ensures s.wl.p < |s.procs| && HoldsWl(s.procs[s.wl.p].pc)
  {
  }

  /** reparent may hand initproc a zombie while it waits, but is about to wake it. */
  lemma WaitsRep(s: State, p: Pid)
    requires LocksMatch(s) && StatesOk(s) && WaitsOk(s) && CanGo(s, p) && p != INIT
    requires s.procs[p].pc.Rep? && s.procs[p].pc.i < |s.procs| && s.procs[s.procs[p].pc.i].parent == Par(p)
    ensures WaitsOk(GoExit(s, p))
  {
    var s', i := GoExit(s, p), s.procs[p].pc.i;
    assert s.wl == Held(p) by { WakeHolder(s, p); }
    assert InitWakeComing(s') && s'.wl == s.wl;
    forall q | 0 <= q < |s'.procs| ensures WaitOk(s', q) {
      assert WaitOk(s, q);
      assert s.wl == Held(q) <==> HoldsWl(s.procs[q].pc);
      hide LocksMatch, StatesOk, WaitsOk;
      if q == p {
        UninvolvedOk(s', p);
      } else if q == INIT {
        assert s'.procs[q].pc == s.procs[q].pc;
      } else {
        WaitOther(s, s', q);
      }
    }
  }

  /** p becomes a zombie after its parent has been woken. */
  lemma WaitsMark(s: State, p: Pid)
    requires LocksMatch(s) && ParentsOk(s) && WaitsOk(s) && CanGo(s, p) && s.procs[p].pc.ExMark?
    ensures WaitsOk(GoExit(s, p))
  {
    var s' := GoExit(s, p);
    assert s.wl == Held(p) by { WakeHolder(s, p); }
    assert WaitOk(s, p) && ParentOk(s, p);
    forall q | 0 <= q < |s'.procs| ensures WaitOk(s', q) {
      assert WaitOk(s, q);
      assert s.wl == Held(q) <==> HoldsWl(s.procs[q].pc);
      hide LocksMatch, ParentsOk, WaitsOk;
      if q == p || s.procs[p].parent == Par(q) {
        UninvolvedOk(s', q);
      } else {
        WaitOther(s, s', q);
      }
    }
  }

  lemma WaitsFree(s: State, p: Pid)
    requires LocksMatch(s) && StatesOk(s) && WaitsOk(s) && CanGo(s, p)
    requires s.procs[p].pc.ScanAt? && s.procs[s.procs[p].pc.i].st == Zombie
    ensures WaitsOk(GoWait(s, p))
  {
    var s', i := GoWait(s, p), s.procs[p].pc.i;
    ZombieIsDead(s, p, i);
    assert s.wl == Held(p) by { WakeHolder(s, p); }
    hide LocksMatch, StatesOk, WaitsOk;
    WaitsPair(s, s', p, i);
  }

  lemma WaitsStep(s: State, a: Action)
    requires LocksMatch(s) && StatesOk(s) && ParentsOk(s) && WaitsOk(s) && Enabled(s, a)
    ensures WaitsOk(Next(s, a))
  {
    hide GoFork, GoExit, GoWait, LocksMatch, ParentsOk;
    if !Special(s, a) {
      hide StatesOk, Next, WaitsOk, WaitOk;
      WaitsQuiet(s, a);
    } else if a.Fork? || a.ForkFail? || s.procs[a.p].pc.ForkSet? || s.procs[a.p].pc.ForkMark? {
      hide StatesOk, WaitsOk;
      WaitsFork(s, a);
    } else if s.procs[a.p].pc.Rep? {
      assert a.p != INIT;
      hide WaitsOk;
      WaitsRep(s, a.p);
    } else if s.procs[a.p].pc.ExMark? {
      hide StatesOk, WaitsOk;
      WaitsMark(s, a.p);
    } else {
      hide StatesOk, WaitsOk;
      WaitsFree(s, a.p);
    }
  }

  lemma WaitsQuiet(s: State, a: Action)
    requires LocksMatch(s) && StatesOk(s) && ParentsOk(s) && WaitsOk(s) && Enabled(s, a) && !Special(s, a)
    ensures WaitsOk(Next(s, a))
  {
    hide Next, LocksMatch, StatesOk, ParentsOk, WaitOk, Special, Enabled;
    QuietMover(s, a);
    forall q | 0 <= q < |Next(s, a).procs| ensures WaitOk(Next(s, a), q) {
      if q != a.p {
        QuietStander(s, a, q);
      }
    }
  }

  // ---- Zombies and the child under wait's eye: steps ----

  lemma NoneLostKept(s: State, s': State)
    requires NoneLost(s) && |s'.procs| == |s.procs| && s'.exited == s.exited && s'.reaped == s.reaped
    requires forall q :: 0 <= q < |s.procs| && s.procs[q].st == Zombie ==>
             s'.procs[q].st == Zombie && s'.procs[q].pid == s.procs[q].pid
    ensures NoneLost(s')
  {
    forall x | x in s'.exited && x !in s'.reaped ensures HasZombie(s', x) {
      assert HasZombie(s, x);
      var p :| 0 <= p < |s.procs| && s.procs[p].st == Zombie && s.procs[p].pid == x;
      assert s'.procs[p].st == Zombie;
    }
  }

  /** No parent changes and nobody starts to look at a child. */
  lemma KidsKept(s: State, s': State)
    requires KidsOk(s) && |s'.procs| == |s.procs|
    requires forall q :: 0 <= q < |s.procs| ==> s'.procs[q].parent == s.procs[q].parent
    requires forall q :: 0 <= q < |s.procs| && s'.procs[q].pc.ScanAt? ==> s'.procs[q].pc == s.procs[q].pc
    ensures KidsOk(s')
  {
  }

  /** The holder p of wait_lock is looking at no child; so nobody is. */
  lemma KidsHeld(s: State, s': State, p: Pid)
    requires LocksMatch(s) && |s'.procs| == |s.procs| && p < |s.procs| && HoldsWl(s.procs[p].pc)
    requires forall q :: 0 <= q < |s.procs| && s'.procs[q].pc.ScanAt? ==> q != p && s'.procs[q].pc == s.procs[q].pc
    ensures KidsOk(s')
  {
    WakeHolder(s, p);
  }

  lemma TailFork(s: State, a: Action)
    requires LocksMatch(s) && StatesOk(s) && NoneLost(s) && KidsOk(s) && Enabled(s, a)
    requires a.Fork? || a.ForkFail? || (a.Go? && (s.procs[a.p].pc.ForkSet? || s.procs[a.p].pc.ForkMark?))
    ensures NoneLost(Next(s, a)) && KidsOk(Next(s, a))
  {
    hide StatesOk, NoneLost, KidsOk, LocksMatch, Next, Slot;
    SlotOff(s, a);
    ForkChange(s, a);
    var s' := Next(s, a);
    NoneLostKept(s, s');
    if a.Go? && s.procs[a.p].pc.ForkSet? {
      KidsHeld(s, s', a.p);
    } else {
      KidsKept(s, s');
    }
  }

  lemma TailExit(s: State, p: Pid)
    requires LocksMatch(s) && StatesOk(s) && NoneLost(s) && CanGo(s, p)
    requires s.procs[p].pc.ExMark?
             || (s.procs[p].pc.Rep? && s.procs[p].pc.i < |s.procs| && s.procs[s.procs[p].pc.i].parent == Par(p))
    ensures NoneLost(GoExit(s, p)) && KidsOk(GoExit(s, p))
  {
    var s' := GoExit(s, p);
    assert StateOk(p, s.procs[p]);
    hide StatesOk, NoneLost, KidsOk, LocksMatch;
    KidsHeld(s, s', p);
    if s.procs[p].pc.ExMark? {
      var t := s'.(exited := s.exited);
      NoneLostKept(s, t);
      LastExited(s, s', p);
    } else {
      NoneLostKept(s, s');
    }
  }

  lemma LastExited(s: State, s': State, p: Pid)
    requires NoneLost(s'.(exited := s.exited)) && p < |s'.procs| && s'.procs[p].st == Zombie
    requires s'.exited == s.exited + [s'.procs[p].pid]
    ensures NoneLost(s')
  {
    var t := s'.(exited := s.exited);
    forall x | x in s'.exited && x !in s'.reaped ensures HasZombie(s', x) {
      if x in s.exited {
        assert HasZombie(t, x);
        var q :| 0 <= q < |t.procs| && t.procs[q].st == Zombie && t.procs[q].pid == x;
        assert s'.procs[q].st == Zombie;
      } else {
        assert x == s'.procs[p].pid;
      }
    }
  }

  lemma TailFree(s: State, p: Pid)
    requires LocksMatch(s) && NoneLost(s) && CanGo(s, p) && s.procs[p].pc.ScanAt?
    requires s.procs[s.procs[p].pc.i].st == Zombie
    requires s.procs[p].pc.i != p
    ensures NoneLost(GoWait(s, p)) && KidsOk(GoWait(s, p))
  {
    var s', i := GoWait(s, p), s.procs[p].pc.i;
    hide LocksMatch, KidsOk;
    KidsHeld(s, s', p);
    forall x | x in s'.exited && x !in s'.reaped ensures HasZombie(s', x) {
      assert HasZombie(s, x);
      var q :| 0 <= q < |s.procs| && s.procs[q].st == Zombie && s.procs[q].pid == x;
      assert q != i;
      assert s'.procs[q].st == Zombie && s'.procs[q].pid == x;
    }
  }

  lemma TailQuiet(s: State, a: Action)
    requires LocksMatch(s) && StatesOk(s) && NoneLost(s) && KidsOk(s) && Enabled(s, a) && !Special(s, a)
    ensures NoneLost(Next(s, a)) && KidsOk(Next(s, a))
  {
    QuietStep(s, a);
    MovedStep(s, a);
    hide Next, StatesOk, LocksMatch, NoneLost, Special, Enabled;
    NoneLostKept(s, Next(s, a));
  }

  lemma TailStep(s: State, a: Action)
    requires LocksMatch(s) && StatesOk(s) && NoneLost(s) && KidsOk(s) && Enabled(s, a)
    ensures NoneLost(Next(s, a)) && KidsOk(Next(s, a))
  {
    hide GoFork, GoExit, GoWait, LocksMatch, StatesOk, NoneLost, KidsOk;
    if !Special(s, a) {
      TailQuiet(s, a);
    } else if a.Fork? || a.ForkFail? || s.procs[a.p].pc.ForkSet? || s.procs[a.p].pc.ForkMark? {
      TailFork(s, a);
    } else if s.procs[a.p].pc.ExMark? || s.procs[a.p].pc.Rep? {
      TailExit(s, a.p);
    } else {
      ZombieIsDead(s, a.p, s.procs[a.p].pc.i);
      TailFree(s, a.p);
    }
  }

  // ---- Every run ----

  lemma StepInv(s: State, a: Action)
    requires Inv(s) && Enabled(s, a)
    ensures Inv(Next(s, a))
  {
    hide Next, LocksMatch, StatesOk, ParentsOk, WaitsOk, PidsOk, NoneLost, KidsOk, Enabled;
    TailStep(s, a);
    LocksStep(s, a);
    StatesStep(s, a);
    ParentsStep(s, a);
    WaitsStep(s, a);
    PidsStep(s, a);
  }

  lemma InitInv(n: nat)
    ensures Inv(Init(n))
  {
    hide LocksMatch, StatesOk, ParentsOk, WaitsOk;
    InitLocks(n);
    InitStates(n);
    InitWaits(n);
  }

  lemma InitLocks(n: nat)
    ensures LocksMatch(Init(n))
  {
  }

  lemma InitStates(n: nat)
    ensures StatesOk(Init(n)) && ParentsOk(Init(n))
  {
    forall p | 0 <= p < n ensures MakerOk(Init(n), p) && ParentOk(Init(n), p) {
    }
  }

  lemma InitWaits(n: nat)
    ensures WaitsOk(Init(n))
  {
    forall p | 0 <= p < n ensures WaitOk(Init(n), p) {
    }
  }

  lemma {:induction false} ReachableInv(s: State, n: nat, acts: seq<Action>)
    requires Reachable(s, n, acts)
    ensures Inv(s)
    decreases |acts|
  {
    hide Inv, Next, Enabled;
    if acts == [] {
      InitInv(n);
    } else {
      var m := |acts| - 1;
      var r :| Reachable(r, n, acts[..m]) && Enabled(r, acts[m]) && s == Next(r, acts[m]);
      ReachableInv(r, n, acts[..m]);
      StepInv(r, acts[m]);
    }
  }

  /** exit/wait loses no wakeup: with wait_lock free, no process asleep in wait has a
      zombie child. */
  lemma SleepersHaveNoZombie(s: State, n: nat, acts: seq<Action>, p: Pid, c: Pid)
    requires Reachable(s, n, acts) && s.wl == Free && p < |s.procs| && c < |s.procs|
    requires s.procs[p].st == Sleeping && s.procs[c].parent == Par(p)
    ensures s.procs[c].st != Zombie
  {
    ReachableInv(s, n, acts);
    assert StateOk(p, s.procs[p]) && WaitOk(s, p);
  }

  /** Every process past fork, except initproc, has a parent that is alive. */
  lemma ParentsLive(s: State, n: nat, acts: seq<Action>, c: Pid)
    requires Reachable(s, n, acts) && c < |s.procs| && c != INIT && s.procs[c].st != Unused && s.procs[c].st != Used
    ensures s.procs[c].parent.Par? && s.procs[c].parent.q < |s.procs| && s.procs[c].parent.q != c
    ensures s.procs[s.procs[c].parent.q].st in {Sleeping, Runnable, Running}
  {
    ReachableInv(s, n, acts);
    assert ParentOk(s, c);
    assert StateOk(s.procs[c].parent.q, s.procs[s.procs[c].parent.q]);
  }

  /** Each exited process is reaped at most once, and is a zombie until then. */
  lemma ReapedOnce(s: State, n: nat, acts: seq<Action>)
    requires Reachable(s, n, acts)
    ensures NoDup(s.reaped) && (forall x :: x in s.reaped ==> x in s.exited)
    ensures forall x :: x in s.exited ==> (x in s.reaped <==> !HasZombie(s, x))
  {
    ReachableInv(s, n, acts);
    hide LocksMatch, StatesOk, ParentsOk, WaitsOk;
  }

  lemma NobodysParent(s: State, i: Pid)
    requires ParentsOk(s) && i < |s.procs| && s.procs[i].pc == Dead
    ensures forall c :: 0 <= c < |s.procs| ==> s.procs[c].parent != Par(i)
  {
    forall c | 0 <= c < |s.procs| ensures s.procs[c].parent != Par(i) {
      assert ParentOk(s, c);
    }
  }

  /** wait frees only a child of its own that has left the CPU for good and has no
      children. */
  lemma ReapedIsOff(s: State, n: nat, acts: seq<Action>, p: Pid)
    requires Reachable(s, n, acts) && Enabled(s, Go(p)) && s.procs[p].pc.ScanAt?
    requires s.procs[s.procs[p].pc.i].st == Zombie
    ensures s.procs[s.procs[p].pc.i].pc == Dead && s.procs[s.procs[p].pc.i].parent == Par(p)
    ensures forall c :: 0 <= c < |s.procs| ==> s.procs[c].parent != Par(s.procs[p].pc.i)
  {
    hide Reachable, LocksMatch, StatesOk, ParentsOk, WaitsOk, PidsOk, NoneLost;
    ReachableInv(s, n, acts);
    var i := s.procs[p].pc.i;
    ZombieIsDead(s, p, i);
    NobodysParent(s, i);
  }
}
