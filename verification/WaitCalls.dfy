/** What wait returns for, who becomes whose child, and what kill and wakeup do, in every
    run of ExitWait (kernel/proc.c:318-352, 400-467, 595-639). */
module WaitCalls {
  import opened ExitWait
  import opened ExitWaitInv

  // ---- Parents ----

  /** How one step can change the parent of c: fork, reparent or freeproc. */
  ghost predicate NewParent(s: State, a: Action, c: Pid, was: Parent, now: Parent)
    requires Enabled(s, a) && c < |s.procs|
  {
    && a.Go?
    && var pc := s.procs[a.p].pc;
       || (pc == ForkSet(c) && was == NoParent && now == Par(a.p))
       || (pc == Rep(c) && was == Par(a.p) && now == Par(INIT))
       || (pc == ScanAt(c) && was == Par(a.p) && now == NoParent && s.procs[c].st == Zombie)
  }

  ghost predicate Relates(s: State, a: Action, s': State, c: Pid)
    requires Enabled(s, a) && c < |s.procs|
  {
    && |s'.procs| == |s.procs|
    && (s'.procs[c].parent != s.procs[c].parent ==> NewParent(s, a, c, s.procs[c].parent, s'.procs[c].parent))
    && (c != a.p ==> s'.procs[c].pc == s.procs[c].pc || s'.procs[c].pc == NewBorn || s'.procs[c].pc == Off)
  }

  lemma SlotParent(s: State, a: Action)
    requires StatesOk(s) && Enabled(s, a) && a.Go? && s.procs[a.p].pc.ForkSet?
    ensures s.procs[Slot(s, a)].parent == NoParent
  {
    assert MakerOk(s, a.p) && MakerOk(s, Slot(s, a));
  }

  lemma RelatesFork(s: State, a: Action, c: Pid)
    requires StatesOk(s) && Enabled(s, a) && c < |s.procs|
    requires a.Fork? || a.ForkFail? || (a.Go? && (s.procs[a.p].pc.ForkSet? || s.procs[a.p].pc.ForkMark?))
    ensures Relates(s, a, Next(s, a), c)
  {
    hide Next, StatesOk;
    SlotOff(s, a);
    ForkFields(s, a);
    if a.Go? && s.procs[a.p].pc.ForkSet? {
      SlotParent(s, a);
    }
  }

  lemma RelatesExit(s: State, p: Pid, c: Pid)
    requires CanGo(s, p) && c < |s.procs| && (s.procs[p].pc.Rep? || s.procs[p].pc.ExMark?)
    ensures Relates(s, Go(p), GoExit(s, p), c)
  {
  }

  lemma RelatesFree(s: State, p: Pid, c: Pid)
    requires LocksMatch(s) && StatesOk(s) && KidsOk(s) && CanGo(s, p) && c < |s.procs| && s.procs[p].pc.ScanAt?
    requires s.procs[s.procs[p].pc.i].st == Zombie
    ensures Relates(s, Go(p), GoWait(s, p), c)
  {
    hide LocksMatch, StatesOk, GoWait;
    FreesDead(s, p);
  }

  lemma Related(s: State, a: Action, c: Pid)
    requires LocksMatch(s) && StatesOk(s) && KidsOk(s) && Enabled(s, a) && c < |s.procs|
    ensures Relates(s, a, Next(s, a), c)
  {
    hide GoFork, GoExit, GoWait, LocksMatch, StatesOk, KidsOk;
    if !Special(s, a) {
      QuietStep(s, a);
    } else if a.Fork? || a.ForkFail? || s.procs[a.p].pc.ForkSet? || s.procs[a.p].pc.ForkMark? {
      hide Relates;
      RelatesFork(s, a, c);
    } else if s.procs[a.p].pc.ScanAt? {
      hide Relates;
      RelatesFree(s, a.p, c);
    } else {
      hide Relates;
      RelatesExit(s, a.p, c);
    }
  }

  /** A process gets a parent from the fork that makes it, loses it to initproc when the
      parent exits, and to nobody when the parent reaps it; nothing else changes it. */
  lemma ParentsChange(s: State, n: nat, acts: seq<Action>, a: Action, c: Pid)
    requires Reachable(s, n, acts) && Enabled(s, a) && c < |s.procs| && c < |Next(s, a).procs|
    requires Next(s, a).procs[c].parent != s.procs[c].parent
    ensures a.Go? && s.wl == Held(a.p)
    ensures NewParent(s, a, c, s.procs[c].parent, Next(s, a).procs[c].parent)
  {
    hide Reachable, Next, StatesOk, ParentsOk, WaitsOk, PidsOk, NoneLost, KidsOk;
    ReachableInv(s, n, acts);
    Related(s, a, c);
    WakeHolder(s, a.p);
  }

  // ---- Children ----

  ghost predicate HasChild(s: State, p: Pid, bound: nat) {
    exists c :: 0 <= c < |s.procs| && c < bound && s.procs[c].parent == Par(p)
  }

  /** havekids says whether a child has been passed. */
  ghost predicate ScanOk(s: State, p: Pid)
    requires p < |s.procs|
  {
    s.procs[p].pc.Scan? ==> (s.procs[p].pc.kids <==> HasChild(s, p, s.procs[p].pc.i))
  }

  ghost predicate ScansOk(s: State) {
    forall p :: 0 <= p < |s.procs| ==> ScanOk(s, p)
  }

  /** Nobody's parent changes while another process holds wait_lock. */
  lemma ScanOther(s: State, a: Action, q: Pid)
    requires LocksMatch(s) && StatesOk(s) && KidsOk(s) && Enabled(s, a) && q < |s.procs| && q != a.p && ScanOk(s, q)
    ensures |Next(s, a).procs| == |s.procs| && ScanOk(Next(s, a), q)
  {
    var s' := Next(s, a);
    hide Next, StatesOk, KidsOk;
    Related(s, a, q);
    if s'.procs[q].pc.Scan? {
      WakeHolder(s, q);
      assert !HoldsWl(s.procs[a.p].pc);
      forall c | 0 <= c < |s.procs| ensures s'.procs[c].parent == s.procs[c].parent {
        Related(s, a, c);
      }
      SameChildren(s, s', q, s.procs[q].pc.i);
    }
  }

  lemma SameChildren(s: State, s': State, p: Pid, bound: nat)
    requires |s'.procs| == |s.procs| && forall c :: 0 <= c < |s.procs| ==> s'.procs[c].parent == s.procs[c].parent
    ensures HasChild(s', p, bound) <==> HasChild(s, p, bound)
  {
    if HasChild(s, p, bound) {
      var c :| 0 <= c < |s.procs| && c < bound && s.procs[c].parent == Par(p);
      assert s'.procs[c].parent == Par(p);
    }
  }

  lemma OneMore(s: State, p: Pid, i: nat)
    requires i < |s.procs|
    ensures HasChild(s, p, i + 1) <==> HasChild(s, p, i) || s.procs[i].parent == Par(p)
  {
    if HasChild(s, p, i) {
      var c :| 0 <= c < |s.procs| && c < i && s.procs[c].parent == Par(p);
      assert c < i + 1;
    }
  }

  lemma ScanMover(s: State, p: Pid)
    requires StatesOk(s) && KidsOk(s) && CanGo(s, p) && ScanOk(s, p)
    requires s.procs[p].pc.WaitLk? || s.procs[p].pc.Scan? || s.procs[p].pc.ScanAt?
    ensures |GoWait(s, p).procs| == |s.procs| && ScanOk(GoWait(s, p), p)
  {
    var s', pc := GoWait(s, p), s.procs[p].pc;
    if s'.procs[p].pc.Scan? {
      hide HasChild, StatesOk;
      SameChildren(s, s', p, s'.procs[p].pc.i);
      if pc.WaitLk? {
        NoneBelow(s, p);
      } else {
        OneMore(s, p, pc.i);
      }
    }
  }

  lemma NoneBelow(s: State, p: Pid)
    ensures !HasChild(s, p, 0)
  {
  }

  /** Only these steps lead to Scan. */
  lemma LeadsToScan(s: State, a: Action)
    requires StatesOk(s) && Enabled(s, a) && a.p < |Next(s, a).procs| && Next(s, a).procs[a.p].pc.Scan?
    ensures a.Go? && (s.procs[a.p].pc.WaitLk? || s.procs[a.p].pc.Scan? || s.procs[a.p].pc.ScanAt?)
    ensures Next(s, a) == GoWait(s, a.p)
  {
    assert MakerOk(s, a.p);
    hide StatesOk;
    if a.Go? && ForkPc(s.procs[a.p].pc) {
      hide GoExit, GoWait;
    } else if a.Go? && ExitPc(s.procs[a.p].pc) {
      hide GoFork, GoWait;
    } else {
      hide GoFork, GoExit;
    }
  }

  lemma ScansStep(s: State, a: Action)
    requires Inv(s) && ScansOk(s) && Enabled(s, a)
    ensures ScansOk(Next(s, a))
  {
    var s' := Next(s, a);
    hide Next, LocksMatch, StatesOk, ParentsOk, WaitsOk, PidsOk, NoneLost, KidsOk, GoWait;
    Related(s, a, a.p);
    forall q | 0 <= q < |s'.procs| ensures ScanOk(s', q) {
      if q != a.p {
        ScanOther(s, a, q);
      } else if s'.procs[q].pc.Scan? {
        LeadsToScan(s, a);
        ScanMover(s, q);
      }
    }
  }

  lemma {:induction false} ReachableScans(s: State, n: nat, acts: seq<Action>)
    requires Reachable(s, n, acts)
    ensures ScansOk(s)
    decreases |acts|
  {
    hide Inv, Next, Enabled;
    if acts != [] {
      var m := |acts| - 1;
      var r :| Reachable(r, n, acts[..m]) && Enabled(r, acts[m]) && s == Next(r, acts[m]);
      ReachableInv(r, n, acts[..m]);
      ReachableScans(r, n, acts[..m]);
      ScansStep(r, acts[m]);
    }
  }

  lemma ScanEnds(s: State, p: Pid)
    requires CanGo(s, p) && s.procs[p].pc.Scan? && s.procs[p].pc.i >= |s.procs|
    ensures Next(s, Go(p)) == SetPc(s, p, if !s.procs[p].pc.kids || s.procs[p].killed then ScanRel else SlLk)
  {
    hide GoFork, GoExit;
  }

  /** When its scan finds no zombie, wait returns -1 if the caller is killed or is nobody's
      parent, and sleeps otherwise. */
  lemma WaitGivesUp(s: State, n: nat, acts: seq<Action>, p: Pid)
    requires Reachable(s, n, acts) && CanGo(s, p) && s.procs[p].pc.Scan? && s.procs[p].pc.i >= |s.procs|
    ensures p < |Next(s, Go(p)).procs|
    ensures var pc := Next(s, Go(p)).procs[p].pc;
            && (pc == ScanRel <==> s.procs[p].killed || forall c :: 0 <= c < |s.procs| ==> s.procs[c].parent != Par(p))
            && (pc == SlLk <==> pc != ScanRel)
    ensures forall c :: 0 <= c < |s.procs| && s.procs[c].parent == Par(p) ==> s.procs[c].st != Zombie
  {
    hide Reachable, LocksMatch, StatesOk, ParentsOk, PidsOk, NoneLost, KidsOk, Next;
    ReachableInv(s, n, acts);
    ReachableScans(s, n, acts);
    assert ScanOk(s, p) && WaitOk(s, p);
    ScanEnds(s, p);
  }

  /** wait gives up on a copyout error only with a zombie child of its own under its lock,
      which it leaves a zombie. */
  lemma CopyoutFails(s: State, n: nat, acts: seq<Action>, p: Pid)
    requires Reachable(s, n, acts) && Enabled(s, WaitFail(p))
    ensures var i := s.procs[p].pc.i;
            && s.procs[i].parent == Par(p) && s.procs[i].st == Zombie && i < |Next(s, WaitFail(p)).procs|
            && Next(s, WaitFail(p)).procs[i] == s.procs[i].(lk := Free) && i != p
  {
    hide Reachable, LocksMatch, ParentsOk, WaitsOk, PidsOk, NoneLost, GoFork, GoExit, GoWait;
    ReachableInv(s, n, acts);
    assert StateOk(p, s.procs[p]);
  }

  // ---- kill and wakeup ----

  /** kill leaves its victim marked and not asleep, and changes nobody else. */
  lemma KillMarks(s: State, p: Pid)
    requires CanGo(s, p) && s.procs[p].pc.KillAt?
    ensures var s', q := Next(s, Go(p)), s.procs[p].pc.q;
            && |s'.procs| == |s.procs| && q < |s.procs| && s'.procs[q].killed && s'.procs[q].st != Sleeping
            && (s.procs[q].st != Sleeping ==> s'.procs[q].st == s.procs[q].st)
            && s'.procs[q].parent == s.procs[q].parent && s'.procs[q].pid == s.procs[q].pid
            && s'.wl == s.wl && s'.exited == s.exited && s'.reaped == s.reaped
            && forall r :: 0 <= r < |s.procs| && r != p && r != q ==> s'.procs[r] == s.procs[r]
  {
    hide GoFork, GoExit, GoWait;
  }

  /** Why q may leave sleep in a step: it is killed, a child of its exits, or it is initproc
      and is being given an orphan. */
  ghost predicate WakesUp(s: State, a: Action, q: Pid)
    requires Enabled(s, a)
  {
    && a.Go?
    && var pr := s.procs[a.p];
       || pr.pc == KillAt(q)
       || (pr.pc == ExWakeAt(q) && pr.parent == Par(q))
       || (pr.pc.RepWakeAt? && pr.pc.j == q && q == INIT)
  }

  /** The mark stays until the slot is freed; only kill sets it. A process asleep stays
      asleep unless one of the three wakes it, which then makes it runnable. */
  ghost predicate Treats(s: State, a: Action, s': State, q: Pid)
    requires Enabled(s, a) && q < |s.procs|
  {
    && |s'.procs| == |s.procs|
    && (s.procs[q].st == Sleeping && s.procs[q].chan == OnProc(q) ==>
        s'.procs[q].st == if WakesUp(s, a, q) then Runnable else Sleeping)
    && (s'.procs[q].killed != s.procs[q].killed ==>
        if s'.procs[q].killed then a == Go(a.p) && s.procs[a.p].pc == KillAt(q) else s'.procs[q].st == Unused)
  }

  lemma TreatsFork(s: State, p: Pid, q: Pid)
    requires CanGo(s, p) && q < |s.procs| && ForkPc(s.procs[p].pc)
    requires p == q ==> s.procs[q].st != Sleeping
    requires InFork(s.procs[p].pc) ==> s.procs[s.procs[p].pc.np].st == Used
    ensures Treats(s, Go(p), GoFork(s, p), q)
  {
  }

  lemma TreatsExit(s: State, p: Pid, q: Pid)
    requires CanGo(s, p) && q < |s.procs| && ExitPc(s.procs[p].pc)
    requires p == q ==> s.procs[q].st != Sleeping
    ensures Treats(s, Go(p), GoExit(s, p), q)
  {
  }

  lemma TreatsWait(s: State, p: Pid, q: Pid)
    requires CanGo(s, p) && q < |s.procs| && WaitPc(s.procs[p].pc)
    requires p == q && s.procs[q].st == Sleeping ==> s.procs[q].pc == SlOff
    ensures Treats(s, Go(p), GoWait(s, p), q)
  {
  }

  lemma TreatsKill(s: State, p: Pid, q: Pid)
    requires CanGo(s, p) && q < |s.procs| && s.procs[p].pc.KillAt?
    requires p == q ==> s.procs[q].st != Sleeping
    ensures Treats(s, Go(p), Next(s, Go(p)), q)
  {
    hide GoFork, GoExit, GoWait;
  }

  lemma TreatsGo(s: State, p: Pid, q: Pid)
    requires CanGo(s, p) && q < |s.procs|
    requires p == q && s.procs[q].st == Sleeping ==> s.procs[q].pc == SlOff
    requires InFork(s.procs[p].pc) ==> s.procs[s.procs[p].pc.np].st == Used
    ensures Treats(s, Go(p), Next(s, Go(p)), q)
  {
    hide GoFork, GoExit, GoWait, Treats, WakesUp;
    var pc := s.procs[p].pc;
    if ForkPc(pc) {
      TreatsFork(s, p, q);
    } else if ExitPc(pc) {
      TreatsExit(s, p, q);
    } else if pc.KillAt? {
      TreatsKill(s, p, q);
    } else {
      TreatsWait(s, p, q);
    }
  }

  /** A waiter sleeps until a child exits, an orphan comes to it or it is killed, and a
      killed process stays marked until it is freed. */
  lemma KillsAndWakes(s: State, n: nat, acts: seq<Action>, a: Action, q: Pid)
    requires Reachable(s, n, acts) && Enabled(s, a) && q < |s.procs|
    ensures Treats(s, a, Next(s, a), q) && (s.procs[q].st == Sleeping ==> s.procs[q].chan == OnProc(q))
  {
    hide Reachable, LocksMatch, ParentsOk, WaitsOk, PidsOk, NoneLost, KidsOk, GoFork, GoExit, GoWait;
    ReachableInv(s, n, acts);
    assert StateOk(a.p, s.procs[a.p]) && MakerOk(s, a.p) && StateOk(q, s.procs[q]);
    hide StatesOk, Treats;
    if a.Go? {
      hide Next;
      TreatsGo(s, a.p, q);
    } else {
      TreatsOther(s, a, q);
    }
  }

  lemma TreatsOther(s: State, a: Action, q: Pid)
    requires Enabled(s, a) && q < |s.procs| && !a.Go?
    requires a.ForkFail? ==> s.procs[s.procs[a.p].pc.np].st == Used
    ensures Treats(s, a, Next(s, a), q)
  {
    hide GoFork, GoExit, GoWait;
  }

  // ---- No deadlock ----

  /** Where a process has nothing to do in the kernel, or must be woken first. */
  predicate Rests(pr: Proc) {
    pr.pc == Off || pr.pc == Run || pr.pc == Dead || (pr.pc == Parked && pr.st == Sleeping)
  }

  lemma GripGoes(s: State, p: Pid, q: Pid)
    requires LocksMatch(s) && p < |s.procs| && HoldsLk(s.procs[p].pc, p, q)
    ensures CanGo(s, p)
  {
  }

  lemma FreeGoes(s: State, p: Pid)
    requires LocksMatch(s) && p < |s.procs| && StateOk(p, s.procs[p]) && !Rests(s.procs[p])
    requires forall q :: 0 <= q < |s.procs| ==> s.procs[q].lk == Free
    requires s.wl == Free || s.wl == Held(p)
    ensures CanGo(s, p)
  {
    assert s.wl == Held(p) <==> HoldsWl(s.procs[p].pc);
  }

  /** fork, exit, wait, sleep, wakeup and kill never deadlock: if a process is inside one
      of them and not asleep, some process can take a step. */
  lemma NoDeadlock(s: State, n: nat, acts: seq<Action>, p: Pid)
    requires Reachable(s, n, acts) && p < |s.procs| && !Rests(s.procs[p])
    ensures exists q :: CanGo(s, q)
  {
    hide Reachable, ParentsOk, WaitsOk, PidsOk, NoneLost, KidsOk, CanGo;
    ReachableInv(s, n, acts);
    if q :| 0 <= q < |s.procs| && s.procs[q].lk.Held? {
      GripGoes(s, s.procs[q].lk.p, q);
    } else if s.wl.Held? {
      var q := s.wl.p;
      assert HoldsWl(s.procs[q].pc) && StateOk(q, s.procs[q]);
      FreeGoes(s, q);
    } else {
      assert StateOk(p, s.procs[p]);
      FreeGoes(s, p);
    }
  }
}
