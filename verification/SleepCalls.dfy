/** What callers of acquiresleep, releasesleep and kill get, in terms of the calls they
    made (kernel/sleeplock.c:21-41, kernel/proc.c:615-639). */
module SleepCalls {
  import opened SleepLock

  /** The sleep-locks p has asked for and not given back, by its calls so far. */
  function Asked(acts: seq<Action>, p: Pid): set<Lid> {
    if acts == [] then {}
    else
      var before := Asked(acts[..|acts| - 1], p);
      match acts[|acts| - 1]
      case Acquire(q, l) => if q == p then before + {l} else before
      case Release(q, l) => if q == p then before - {l} else before
      case _ => before
  }

  predicate Acquiring(pc: PC) {
    || pc.AcqWait? || pc.AcqTest? || pc.SleepLk? || pc.SleepRel? || pc.SleepChan? || pc.SleepMark? || pc.SleepOff?
    || pc.Parked? || pc.Woken? || pc.SleepBack? || pc.AcqDone?
  }

  /** Between calls p has exactly what it asked for; inside one, up to that call's lock. */
  predicate CallOk(pr: Proc, asked: set<Lid>) {
    if Acquiring(pr.pc) then pr.held + {pr.pc.l} == asked
    else if pr.pc.RelWait? || pr.pc.RelClear? then pr.pc.l in pr.held && pr.held - {pr.pc.l} == asked
    else pr.held == asked
  }

  lemma OthersGo(s: State, q: Pid, p: Pid)
    requires CanGo(s, q) && p < |s.procs| && q != p
    ensures |Advance(s, q).procs| == |s.procs|
    ensures var pr, pr' := s.procs[p], Advance(s, q).procs[p];
            pr'.pc == pr.pc && pr'.held == pr.held && pr'.chan == pr.chan && (pr.killed ==> pr'.killed)
  {
  }

  /** A call by another changes nothing in p's call. */
  lemma OthersCalls(s: State, a: Action, p: Pid)
    requires Enabled(s, a) && p < |s.procs| && a.p != p
    ensures |Next(s, a).procs| == |s.procs|
    ensures var pr, pr' := s.procs[p], Next(s, a).procs[p];
            pr'.pc == pr.pc && pr'.held == pr.held && pr'.chan == pr.chan && (pr.killed ==> pr'.killed)
  {
    hide Advance;
    if a.Go? {
      OthersGo(s, a.p, p);
    }
  }

  lemma OwnGo(s: State, p: Pid, asked: set<Lid>)
    requires CanGo(s, p) && CallOk(s.procs[p], asked)
    ensures |Advance(s, p).procs| == |s.procs| && CallOk(Advance(s, p).procs[p], asked)
  {
  }

  lemma OwnCall(s: State, a: Action, asked: set<Lid>)
    requires Enabled(s, a) && CallOk(s.procs[a.p], asked) && !a.Go?
    ensures |Next(s, a).procs| == |s.procs|
    ensures CallOk(Next(s, a).procs[a.p],
              if a.Acquire? then asked + {a.l} else if a.Release? then asked - {a.l} else asked)
  {
  }

  lemma {:induction false} CallsMatch(s: State, procs: nat, locks: nat, acts: seq<Action>, p: Pid)
    requires Reachable(s, procs, locks, acts) && p < procs
    ensures |s.procs| == procs && CallOk(s.procs[p], Asked(acts, p))
    decreases |acts|
  {
    hide Enabled, Next, CallOk;
    if acts == [] {
      assert CallOk(s.procs[p], {}) by { StartOk(procs, locks, p); }
    } else {
      var n := |acts| - 1;
      var r :| Reachable(r, procs, locks, acts[..n]) && Enabled(r, acts[n]) && s == Next(r, acts[n]);
      CallsMatch(r, procs, locks, acts[..n], p);
      CallStep(r, acts[n], p, Asked(acts[..n], p));
    }
  }

  lemma StartOk(procs: nat, locks: nat, p: Pid)
    requires p < procs
    ensures CallOk(Init(procs, locks).procs[p], {})
  {
  }

  lemma CallStep(s: State, a: Action, p: Pid, asked: set<Lid>)
    requires Enabled(s, a) && p < |s.procs| && CallOk(s.procs[p], asked)
    ensures |Next(s, a).procs| == |s.procs|
    ensures CallOk(Next(s, a).procs[p],
              if a.Acquire? && a.p == p then asked + {a.l} else if a.Release? && a.p == p then asked - {a.l} else asked)
  {
    if a.p != p {
      OthersCalls(s, a, p);
    } else if a.Go? {
      OwnGo(s, p, asked);
    } else {
      OwnCall(s, a, asked);
    }
  }

  /** When p is between calls, it has exactly the sleep-locks its calls asked for: every
      acquiresleep that has returned got its lock, every releasesleep gave it back, and
      nothing else changed hands. */
  lemma CallsReturn(s: State, procs: nat, locks: nat, acts: seq<Action>, p: Pid)
    requires Reachable(s, procs, locks, acts) && p < procs && |s.procs| == procs && s.procs[p].pc == Run
    ensures s.procs[p].held == Asked(acts, p)
    ensures forall l :: l in Asked(acts, p) && l < |s.locks| ==> s.locks[l].locked && s.locks[l].pid == p
    ensures forall l :: 0 <= l < |s.locks| && l !in Asked(acts, p) ==> !(s.locks[l].locked && s.locks[l].pid == p)
  {
    hide Reachable, LocksMatch, SleepersMarked, WakeupsKept;
    CallsMatch(s, procs, locks, acts, p);
    ReachableInv(s, procs, locks, acts);
    forall l | l in Asked(acts, p) && l < |s.locks| ensures s.locks[l].locked && s.locks[l].pid == p {
      assert Owns(s.procs[p], l);
    }
  }

  // ---- kill ----

  /** Every kill that has returned left its mark. */
  lemma {:induction false} KillsTake(s: State, procs: nat, locks: nat, acts: seq<Action>, i: nat)
    requires Reachable(s, procs, locks, acts) && i < |acts| && acts[i].Kill?
    ensures acts[i].p < |s.procs| && acts[i].q < |s.procs|
    ensures s.procs[acts[i].q].killed || s.procs[acts[i].p].pc == KillAt(acts[i].q)
    decreases |acts|
  {
    hide Enabled, Next;
    var n := |acts| - 1;
    var r :| Reachable(r, procs, locks, acts[..n]) && Enabled(r, acts[n]) && s == Next(r, acts[n]);
    if i < n {
      KillsTake(r, procs, locks, acts[..n], i);
      KillStays(r, acts[n], acts[i].p, acts[i].q);
    } else {
      KillStarts(r, acts[n]);
    }
  }

  lemma KillStarts(s: State, a: Action)
    requires Enabled(s, a) && a.Kill?
    ensures a.p < |Next(s, a).procs| && a.q < |Next(s, a).procs| && Next(s, a).procs[a.p].pc == KillAt(a.q)
  {
  }

  lemma KillStays(s: State, a: Action, p: Pid, q: Pid)
    requires Enabled(s, a) && p < |s.procs| && q < |s.procs| && (s.procs[q].killed || s.procs[p].pc == KillAt(q))
    ensures |Next(s, a).procs| == |s.procs|
    ensures Next(s, a).procs[q].killed || Next(s, a).procs[p].pc == KillAt(q)
  {
    hide Advance;
    if s.procs[q].killed {
      MarkStays(s, a, q);
    } else if a.p != p {
      OthersCalls(s, a, p);
    } else {
      KillRouses(s, p);
    }
  }

  lemma MarkStays(s: State, a: Action, q: Pid)
    requires Enabled(s, a) && q < |s.procs| && s.procs[q].killed
    ensures |Next(s, a).procs| == |s.procs| && Next(s, a).procs[q].killed
  {
    if a.p != q {
      OthersCalls(s, a, q);
    }
  }

  /** kill's step leaves its victim awake. */
  lemma KillRouses(s: State, p: Pid)
    requires CanGo(s, p) && s.procs[p].pc.KillAt?
    ensures |Advance(s, p).procs| == |s.procs| && Advance(s, p).procs[p].pc == Run
    ensures var v := Advance(s, p).procs[s.procs[p].pc.q]; v.st != Sleeping && v.killed
  {
  }

  // ---- The calls do return ----

  /** k steps of p alone lead from s to s'. */
  ghost predicate GoesTo(s: State, p: Pid, k: nat, s': State)
    decreases k
  {
    if k == 0 then s == s' else CanGo(s, p) && GoesTo(Advance(s, p), p, k - 1, s')
  }

  /** acquiresleep of a lock nobody has, with its spin-lock free. */
  lemma Uncontended(s: State, p: Pid, l: Lid) returns (s': State)
    requires p < |s.procs| && l < |s.locks| && s.procs[p].pc == AcqWait(l)
    requires s.locks[l].spin == Free && !s.locks[l].locked
    ensures GoesTo(s, p, 3, s') && |s'.procs| == |s.procs| && |s'.locks| == |s.locks|
    ensures s'.procs[p].pc == Run && l in s'.procs[p].held && s'.locks[l].locked
  {
    var s1 := Advance(s, p);
    var s2 := Advance(s1, p);
    s' := Advance(s2, p);
    assert GoesTo(s2, p, 1, s') by { assert GoesTo(s', p, 0, s'); }
    assert GoesTo(s1, p, 2, s');
  }

  /** A sleeper that has been woken, when the lock is free again. */
  lemma WokenGets(s: State, p: Pid, l: Lid) returns (s': State)
    requires p < |s.procs| && l < |s.locks| && s.procs[p].pc == Parked(l)
    requires s.procs[p].st == Runnable && s.procs[p].lk == Free && s.locks[l].spin == Free && !s.locks[l].locked
    ensures GoesTo(s, p, 6, s') && |s'.procs| == |s.procs| && |s'.locks| == |s.locks|
    ensures s'.procs[p].pc == Run && l in s'.procs[p].held && s'.locks[l].locked
  {
    var s1 := Advance(s, p);
    var s2 := Advance(s1, p);
    var s3 := Advance(s2, p);
    s' := Uncontended(s3, p, l);
    assert GoesTo(s2, p, 4, s');
    assert GoesTo(s1, p, 5, s');
  }

  /** yield gives up the CPU, stays runnable, and comes back with nothing changed. */
  lemma Yields(s: State, p: Pid)
    requires Enabled(s, Yield(p)) && s.procs[p].st == Running
    ensures var s1 := Next(s, Yield(p));
            && CanGo(s1, p) && |Advance(s1, p).procs| == |s.procs|
            && Advance(s1, p).procs[p] == s.procs[p].(st := Runnable, pc := YieldOff)
            && GoesTo(s1, p, 3, s)
  {
    var s1 := Next(s, Yield(p));
    var s2 := Advance(s1, p);
    var s3 := Advance(s2, p);
    assert Advance(s3, p).procs == s.procs;
    assert GoesTo(s3, p, 1, s) by { assert GoesTo(s, p, 0, s); }
    assert GoesTo(s2, p, 2, s);
  }

  // ---- Channels and names ----

  /** A process has a channel only while it sleeps or is about to. */
  predicate ChanOk(pr: Proc) {
    pr.chan == if pr.pc.SleepMark? || pr.pc.SleepOff? || pr.pc.Parked? || pr.pc.Woken? then On(pr.pc.l) else NoChan
  }

  /** A process off the CPU is not running. */
  predicate OffOk(pr: Proc) {
    (pr.pc.Parked? ==> pr.st != Running) && (pr.pc == YieldOff ==> pr.st == Runnable)
  }

  ghost predicate FieldsOk(s: State) {
    && (forall p :: 0 <= p < |s.procs| ==> ChanOk(s.procs[p]) && OffOk(s.procs[p]))
    && (forall l :: 0 <= l < |s.locks| && !s.locks[l].locked ==> s.locks[l].pid == 0)
  }

  lemma ChanGo(s: State, p: Pid)
    requires CanGo(s, p) && ChanOk(s.procs[p]) && Marked(s.procs[p])
    ensures |Advance(s, p).procs| == |s.procs| && ChanOk(Advance(s, p).procs[p]) && OffOk(Advance(s, p).procs[p])
  {
  }

  lemma OffOther(s: State, q: Pid, p: Pid)
    requires CanGo(s, q) && p < |s.procs| && q != p && OffOk(s.procs[p])
    ensures |Advance(s, q).procs| == |s.procs| && OffOk(Advance(s, q).procs[p])
  {
  }

  lemma ChanStep(s: State, a: Action, p: Pid)
    requires Enabled(s, a) && p < |s.procs| && ChanOk(s.procs[p]) && OffOk(s.procs[p]) && Marked(s.procs[p])
    ensures |Next(s, a).procs| == |s.procs| && ChanOk(Next(s, a).procs[p]) && OffOk(Next(s, a).procs[p])
  {
    hide Advance;
    if a.p != p {
      OthersCalls(s, a, p);
      if a.Go? {
        OffOther(s, a.p, p);
      }
    } else if a.Go? {
      ChanGo(s, p);
    }
  }

  lemma NamesStep(s: State, a: Action, l: Lid)
    requires Enabled(s, a) && l < |s.locks| && (!s.locks[l].locked ==> s.locks[l].pid == 0)
    ensures |Next(s, a).locks| == |s.locks| && (!Next(s, a).locks[l].locked ==> Next(s, a).locks[l].pid == 0)
  {
  }

  /** Outside sleep a process waits for nothing, and a lock nobody has names nobody. */
  lemma {:induction false} FieldsClear(s: State, procs: nat, locks: nat, acts: seq<Action>)
    requires Reachable(s, procs, locks, acts)
    ensures FieldsOk(s)
    decreases |acts|
  {
    hide Enabled, Next, ChanOk, OffOk, LocksMatch, OneOwner, WakeupsKept;
    if acts == [] {
      forall p | 0 <= p < |s.procs| ensures ChanOk(s.procs[p]) && OffOk(s.procs[p]) {
        StartChan(procs, locks, p);
      }
    } else {
      var n := |acts| - 1;
      var r :| Reachable(r, procs, locks, acts[..n]) && Enabled(r, acts[n]) && s == Next(r, acts[n]);
      FieldsClear(r, procs, locks, acts[..n]);
      SizesFixed(r, acts[n]);
      ReachableInv(r, procs, locks, acts[..n]);
      forall p | 0 <= p < |s.procs| ensures ChanOk(s.procs[p]) && OffOk(s.procs[p]) {
        ChanStep(r, acts[n], p);
      }
      forall l | 0 <= l < |s.locks| && !s.locks[l].locked ensures s.locks[l].pid == 0 {
        NamesStep(r, acts[n], l);
      }
    }
  }

  lemma StartChan(procs: nat, locks: nat, p: Pid)
    requires p < procs
    ensures ChanOk(Init(procs, locks).procs[p]) && OffOk(Init(procs, locks).procs[p])
  {
  }

  /** What ends the sleep of q: the wakeup for its lock, or kill. */
  predicate Rouses(s: State, a: Action, q: Pid)
    requires Enabled(s, a) && q < |s.procs|
  {
    a.Go? && (s.procs[a.p].pc == KillAt(q) ||
              (s.procs[a.p].pc.WakeAt? && s.procs[a.p].pc.i == q && s.procs[q].chan == On(s.procs[a.p].pc.l)))
  }

  lemma RousedByOther(s: State, p: Pid, q: Pid)
    requires CanGo(s, p) && q < |s.procs| && q != p
    ensures |Advance(s, p).procs| == |s.procs|
    ensures s.procs[q].st == Sleeping ==>
              Advance(s, p).procs[q].st == if Rouses(s, Go(p), q) then Runnable else Sleeping
    ensures Advance(s, p).procs[q].killed <==> s.procs[q].killed || s.procs[p].pc == KillAt(q)
  {
  }

  lemma RousedBySelf(s: State, p: Pid)
    requires CanGo(s, p) && Marked(s.procs[p])
    ensures |Advance(s, p).procs| == |s.procs|
    ensures s.procs[p].st == Sleeping ==> Advance(s, p).procs[p].st == Sleeping && s.procs[p].pc.SleepOff?
    ensures Advance(s, p).procs[p].killed <==> s.procs[p].killed || s.procs[p].pc == KillAt(p)
  {
  }

  lemma CallsRouseNone(s: State, a: Action, q: Pid)
    requires Enabled(s, a) && !a.Go? && q < |s.procs|
    ensures |Next(s, a).procs| == |s.procs|
    ensures Next(s, a).procs[q].st == s.procs[q].st && Next(s, a).procs[q].killed == s.procs[q].killed
  {
  }

  /** A sleeper sleeps on until the wakeup for its own lock or a kill reaches it, and is
      then runnable; only kill marks a process. */
  lemma RousedOnly(s: State, procs: nat, locks: nat, acts: seq<Action>, a: Action, q: Pid)
    requires Reachable(s, procs, locks, acts) && Enabled(s, a) && q < |s.procs|
    ensures |Next(s, a).procs| == |s.procs|
    ensures s.procs[q].st == Sleeping ==> Next(s, a).procs[q].st == if Rouses(s, a, q) then Runnable else Sleeping
    ensures Next(s, a).procs[q].killed <==> s.procs[q].killed || (a.Go? && s.procs[a.p].pc == KillAt(q))
  {
    hide Reachable, LocksMatch, OneOwner, WakeupsKept, Advance;
    ReachableInv(s, procs, locks, acts);
    assert Marked(s.procs[q]);
    if !a.Go? {
      CallsRouseNone(s, a, q);
    } else if a.p == q {
      RousedBySelf(s, q);
    } else {
      RousedByOther(s, a.p, q);
    }
  }

  // ---- No deadlock ----

  /** Outside these calls, or asleep. */
  predicate Rests(pr: Proc) {
    pr.pc == Run || (pr.pc.Parked? && pr.st == Sleeping)
  }

  lemma GripGoes(s: State, p: Pid, q: Pid)
    requires LocksMatch(s) && p < |s.procs| && HoldsProcLock(s.procs[p].pc, p, q)
    ensures CanGo(s, p)
  {
  }

  lemma FreeGoes(s: State, p: Pid)
    requires LocksMatch(s) && p < |s.procs| && !Rests(s.procs[p]) && OffOk(s.procs[p])
    requires forall q :: 0 <= q < |s.procs| ==> s.procs[q].lk == Free
    requires forall l :: 0 <= l < |s.locks| ==> s.locks[l].spin == Free || HoldsSpin(s.procs[p].pc, l)
    ensures CanGo(s, p)
  {
    assert Names(s, s.procs[p].pc);
  }

  lemma SpinGoes(s: State, p: Pid, l: Lid)
    requires LocksMatch(s) && p < |s.procs| && HoldsSpin(s.procs[p].pc, l)
    requires forall q :: 0 <= q < |s.procs| ==> s.procs[q].lk == Free
    ensures CanGo(s, p)
  {
    assert Names(s, s.procs[p].pc);
  }

  /** The calls never deadlock: if a process is inside one and not asleep, some process
      can take a step. */
  lemma NoDeadlock(s: State, procs: nat, locks: nat, acts: seq<Action>, p: Pid)
    requires Reachable(s, procs, locks, acts) && p < |s.procs| && !Rests(s.procs[p])
    ensures exists q :: CanGo(s, q)
  {
    hide Reachable, SleepersMarked, OneOwner, WakeupsKept, CanGo;
    ReachableInv(s, procs, locks, acts);
    FieldsClear(s, procs, locks, acts);
    if q :| 0 <= q < |s.procs| && s.procs[q].lk.Held? {
      GripGoes(s, s.procs[q].lk.p, q);
    } else if l :| 0 <= l < |s.locks| && s.locks[l].spin.Held? {
      SpinGoes(s, s.locks[l].spin.p, l);
    } else {
      FreeGoes(s, p);
    }
  }
}
