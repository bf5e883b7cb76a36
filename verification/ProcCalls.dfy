/** fork, exit and wait of ExitWait, run by one process while no lock is held by another:
    the many small steps do what each call promises as a whole (kernel/proc.c:283-467). */
module ProcCalls {
  import opened ExitWait
  import opened WaitCalls

  /** k steps of p alone lead from s to t. */
  ghost predicate GoesTo(s: State, p: Pid, t: State, k: nat)
    decreases k
  {
    if k == 0 then s == t else CanGo(s, p) && GoesTo(Next(s, Go(p)), p, t, k - 1)
  }

  ghost predicate Leads(s: State, p: Pid, t: State) {
    exists k :: GoesTo(s, p, t, k)
  }

  lemma {:induction false} GoesOn(s: State, p: Pid, t: State, k: nat, u: State, m: nat)
    requires GoesTo(s, p, t, k) && GoesTo(t, p, u, m)
    ensures GoesTo(s, p, u, k + m)
    decreases k
  {
    hide Next, CanGo;
    if k > 0 {
      GoesOn(Next(s, Go(p)), p, t, k - 1, u, m);
    }
  }

  lemma Then(s: State, p: Pid, t: State, u: State)
    requires Leads(s, p, t) && Leads(t, p, u)
    ensures Leads(s, p, u)
  {
    var k :| GoesTo(s, p, t, k);
    var m :| GoesTo(t, p, u, m);
    GoesOn(s, p, t, k, u, m);
  }

  lemma One(s: State, p: Pid, t: State)
    requires CanGo(s, p) && Next(s, Go(p)) == t
    ensures Leads(s, p, t)
  {
    assert GoesTo(t, p, t, 0);
    assert GoesTo(s, p, t, 1);
  }

  lemma Here(s: State, p: Pid)
    ensures Leads(s, p, s)
  {
    assert GoesTo(s, p, s, 0);
  }

  /** No lock is held. */
  ghost predicate Quiet(s: State) {
    s.wl == Free && forall q :: 0 <= q < |s.procs| ==> s.procs[q].lk == Free
  }

  // ---- fork ----

  /** s with p at pc, child in slot np and wait_lock as given. */
  function ForkAt(s: State, p: Pid, pc: PC, np: Pid, child: Proc, wl: Owner): State
    requires p < |s.procs| && np < |s.procs|
  {
    SetPc(Upd(s, np, child), p, pc).(wl := wl)
  }

  lemma ForkStep(s: State, p: Pid, pc: PC, np: Pid, c: Proc, wl: Owner)
    requires p < |s.procs| && np < |s.procs| && p != np && InFork(pc) && pc.np == np
    requires (pc.ForkPar? ==> wl == Free) && (pc.ForkRun? ==> c.lk == Free)
    ensures Leads(ForkAt(s, p, pc, np, c, wl), p,
                  match pc
                  case ForkInit(_) => ForkAt(s, p, ForkPar(np), np, c.(lk := Free), wl)
                  case ForkPar(_) => ForkAt(s, p, ForkSet(np), np, c, Held(p))
                  case ForkSet(_) => ForkAt(s, p, ForkRel(np), np, c.(parent := Par(p)), wl)
                  case ForkRel(_) => ForkAt(s, p, ForkRun(np), np, c, Free)
                  case ForkRun(_) => ForkAt(s, p, ForkMark(np), np, c.(lk := Held(p)), wl)
                  case ForkMark(_) => ForkAt(s, p, Run, np, c.(st := Runnable, lk := Free, pc := NewBorn), wl))
  {
    hide Leads, GoExit, GoWait;
    var t := ForkAt(s, p, pc, np, c, wl);
    var u := Next(t, Go(p));
    One(t, p, u);
    assert u.procs == s.procs[np := u.procs[np]][p := u.procs[p]];
  }

  /** fork, with nobody else in the kernel: np becomes a runnable child of p with a fresh
      pid, and nothing else changes. */
  lemma ForkAlone(s: State, p: Pid, np: Pid)
    requires Quiet(s) && Enabled(s, Fork(p, np)) && p != np
    ensures var child := s.procs[np].(st := Runnable, pid := s.nextPid, parent := Par(p), pc := NewBorn, maker := p);
            Leads(Next(s, Fork(p, np)), p, Upd(s, np, child).(nextPid := s.nextPid + 1))
  {
    hide Leads, GoFork, GoExit, GoWait, ForkAt;
    var s0 := Next(s, Fork(p, np));
    var r := s.(nextPid := s.nextPid + 1);
    var c := s.procs[np].(st := Used, pid := s.nextPid, lk := Held(p), maker := p);
    ForkStarts(s, p, np, c);
    hide Next;
    ForkStep(r, p, ForkInit(np), np, c, Free);
    var c1 := c.(lk := Free);
    ForkStep(r, p, ForkPar(np), np, c1, Free);
    Then(s0, p, ForkAt(r, p, ForkPar(np), np, c1, Free), ForkAt(r, p, ForkSet(np), np, c1, Held(p)));
    ForkStep(r, p, ForkSet(np), np, c1, Held(p));
    var c2 := c1.(parent := Par(p));
    Then(s0, p, ForkAt(r, p, ForkSet(np), np, c1, Held(p)), ForkAt(r, p, ForkRel(np), np, c2, Held(p)));
    ForkStep(r, p, ForkRel(np), np, c2, Held(p));
    Then(s0, p, ForkAt(r, p, ForkRel(np), np, c2, Held(p)), ForkAt(r, p, ForkRun(np), np, c2, Free));
    ForkStep(r, p, ForkRun(np), np, c2, Free);
    var c3 := c2.(lk := Held(p));
    Then(s0, p, ForkAt(r, p, ForkRun(np), np, c2, Free), ForkAt(r, p, ForkMark(np), np, c3, Free));
    ForkStep(r, p, ForkMark(np), np, c3, Free);
    var c4 := c3.(st := Runnable, lk := Free, pc := NewBorn);
    Then(s0, p, ForkAt(r, p, ForkMark(np), np, c3, Free), ForkAt(r, p, Run, np, c4, Free));
    ForkEnds(s, p, np, c4);
  }

  lemma ForkStarts(s: State, p: Pid, np: Pid, c: Proc)
    requires Quiet(s) && Enabled(s, Fork(p, np)) && p != np
    requires c == s.procs[np].(st := Used, pid := s.nextPid, lk := Held(p), maker := p)
    ensures Next(s, Fork(p, np)) == ForkAt(s.(nextPid := s.nextPid + 1), p, ForkInit(np), np, c, Free)
  {
    hide GoFork, GoExit, GoWait;
  }

  lemma ForkEnds(s: State, p: Pid, np: Pid, c: Proc)
    requires p < |s.procs| && np < |s.procs| && p != np && s.procs[p].pc == Run && s.wl == Free
    ensures ForkAt(s.(nextPid := s.nextPid + 1), p, Run, np, c, Free) == Upd(s, np, c).(nextPid := s.nextPid + 1)
  {
    var t := ForkAt(s.(nextPid := s.nextPid + 1), p, Run, np, c, Free);
    assert t.procs == s.procs[np := c];
  }

  // ---- wait ----

  /** s with p at pc and wait_lock as given. */
  function At(s: State, p: Pid, pc: PC, wl: Owner): State
    requires p < |s.procs|
  {
    SetPc(s, p, pc).(wl := wl)
  }

  /** c is no zombie child of p. */
  predicate Skipped(s: State, p: Pid, c: Pid)
    requires c < |s.procs|
  {
    s.procs[c].parent == Par(p) ==> s.procs[c].st != Zombie
  }

  ghost predicate Waits(s: State, p: Pid) {
    Quiet(s) && p < |s.procs| && s.procs[p].parent != Par(p)
  }

  lemma ScanNext(s: State, p: Pid, i: nat, kids: bool)
    requires Waits(s, p) && i < |s.procs| && s.procs[i].parent != Par(p)
    ensures Leads(At(s, p, Scan(i, kids), Held(p)), p, At(s, p, Scan(i + 1, kids), Held(p)))
  {
    hide Leads, GoFork, GoExit;
    var t, u := At(s, p, Scan(i, kids), Held(p)), At(s, p, Scan(i + 1, kids), Held(p));
    assert Next(t, Go(p)).procs == u.procs;
    One(t, p, u);
  }

  /** s with p looking at its child i. */
  function Looking(s: State, p: Pid, i: Pid): State
    requires p < |s.procs| && i < |s.procs|
  {
    At(SetLk(s, i, Held(p)), p, ScanAt(i), Held(p))
  }

  lemma ScanLook(s: State, p: Pid, i: nat, kids: bool)
    requires Waits(s, p) && i < |s.procs| && s.procs[i].parent == Par(p)
    ensures Leads(At(s, p, Scan(i, kids), Held(p)), p, Looking(s, p, i))
  {
    hide Leads, GoFork, GoExit;
    var t, u := At(s, p, Scan(i, kids), Held(p)), Looking(s, p, i);
    assert Next(t, Go(p)).procs == u.procs;
    One(t, p, u);
  }

  lemma ScanSkip(s: State, p: Pid, i: nat)
    requires Waits(s, p) && i < |s.procs| && s.procs[i].parent == Par(p) && s.procs[i].st != Zombie
    ensures Leads(Looking(s, p, i), p, At(s, p, Scan(i + 1, true), Held(p)))
  {
    hide Leads, GoFork, GoExit;
    var t, u := Looking(s, p, i), At(s, p, Scan(i + 1, true), Held(p));
    assert Next(t, Go(p)).procs == u.procs;
    One(t, p, u);
  }

  /** wait's scan goes past everyone who is not a zombie child, and remembers whether it
      saw a child. */
  lemma {:induction false} ScanPast(s: State, p: Pid, c: nat)
    requires Waits(s, p) && c <= |s.procs| && forall q :: 0 <= q < c ==> Skipped(s, p, q)
    ensures Leads(At(s, p, Scan(0, false), Held(p)), p, At(s, p, Scan(c, HasChild(s, p, c)), Held(p)))
  {
    hide Leads, At, Looking, Quiet, HasChild;
    var from := At(s, p, Scan(0, false), Held(p));
    if c == 0 {
      NoneBelow(s, p);
      Here(from, p);
    } else {
      var i := c - 1;
      ScanPast(s, p, i);
      OneMore(s, p, i);
      var mid := At(s, p, Scan(i, HasChild(s, p, i)), Held(p));
      assert Skipped(s, p, i);
      if s.procs[i].parent == Par(p) {
        ScanLook(s, p, i, HasChild(s, p, i));
        ScanSkip(s, p, i);
        Then(mid, p, Looking(s, p, i), At(s, p, Scan(c, true), Held(p)));
      } else {
        ScanNext(s, p, i, HasChild(s, p, i));
      }
      Then(from, p, mid, At(s, p, Scan(c, HasChild(s, p, c)), Held(p)));
    }
  }

  lemma WaitStarts(s: State, p: Pid)
    requires Waits(s, p) && s.procs[p].pc == Run
    ensures Leads(Next(s, Wait(p)), p, At(s, p, Scan(0, false), Held(p)))
  {
    hide Leads, GoFork, GoExit;
    var t, u := Next(s, Wait(p)), At(s, p, Scan(0, false), Held(p));
    assert Next(t, Go(p)).procs == u.procs;
    One(t, p, u);
  }

  lemma WaitEnds(s: State, p: Pid)
    requires Waits(s, p) && s.procs[p].pc == Run
    ensures Leads(At(s, p, ScanRel, Held(p)), p, s)
  {
    hide Leads, GoFork, GoExit;
    var t := At(s, p, ScanRel, Held(p));
    assert Next(t, Go(p)).procs == s.procs;
    One(t, p, s);
  }

  /** s after p has freed its child c. */
  function Collected(s: State, c: Pid): State
    requires c < |s.procs|
  {
    Upd(s, c, Freed(s.procs[c])).(reaped := s.reaped + [s.procs[c].pid])
  }

  lemma Collects(s: State, p: Pid, c: Pid)
    requires Waits(s, p) && c < |s.procs| && s.procs[c].parent == Par(p) && s.procs[c].st == Zombie
    ensures Leads(Looking(s, p, c), p, At(SetLk(Collected(s, c), c, Held(p)), p, ScanFree(c), Held(p)))
  {
    hide Leads, GoFork, GoExit;
    var t, u := Looking(s, p, c), At(SetLk(Collected(s, c), c, Held(p)), p, ScanFree(c), Held(p));
    assert Next(t, Go(p)).procs == u.procs;
    One(t, p, u);
  }

  lemma LetsGo(s: State, p: Pid, c: Pid)
    requires Waits(s, p) && c < |s.procs| && c != p
    ensures Leads(At(SetLk(s, c, Held(p)), p, ScanFree(c), Held(p)), p, At(s, p, ScanRel, Held(p)))
  {
    hide Leads, GoFork, GoExit;
    var t, u := At(SetLk(s, c, Held(p)), p, ScanFree(c), Held(p)), At(s, p, ScanRel, Held(p));
    assert Next(t, Go(p)).procs == u.procs;
    One(t, p, u);
  }

  /** wait, with nobody else in the kernel: the first zombie child is freed and its pid
      reported, and nothing else changes. */
  lemma WaitReaps(s: State, p: Pid, c: Pid)
    requires Waits(s, p) && s.procs[p].pc == Run && c < |s.procs|
    requires s.procs[c].parent == Par(p) && s.procs[c].st == Zombie && forall q :: 0 <= q < c ==> Skipped(s, p, q)
    ensures Leads(Next(s, Wait(p)), p, Collected(s, c))
    ensures Collected(s, c).procs[c] == Proc(Unused, NoChan, NoParent, 0, Free, Off, false, s.procs[c].maker)
  {
    hide Leads, At, Looking, HasChild, Next;
    var s0, seen := Next(s, Wait(p)), HasChild(s, p, c);
    WaitStarts(s, p);
    ScanPast(s, p, c);
    Then(s0, p, At(s, p, Scan(0, false), Held(p)), At(s, p, Scan(c, seen), Held(p)));
    ScanLook(s, p, c, seen);
    Then(s0, p, At(s, p, Scan(c, seen), Held(p)), Looking(s, p, c));
    Collects(s, p, c);
    var t := Collected(s, c);
    var u := At(SetLk(t, c, Held(p)), p, ScanFree(c), Held(p));
    Then(s0, p, Looking(s, p, c), u);
    LetsGo(t, p, c);
    Then(s0, p, u, At(t, p, ScanRel, Held(p)));
    WaitEnds(t, p);
    Then(s0, p, At(t, p, ScanRel, Held(p)), t);
  }

  /** A whole scan that finds no zombie child. */
  lemma ScanAll(s: State, p: Pid)
    requires Waits(s, p) && s.procs[p].pc == Run && forall q :: 0 <= q < |s.procs| ==> Skipped(s, p, q)
    ensures Leads(Next(s, Wait(p)), p,
                  At(s, p, if !HasChild(s, p, |s.procs|) || s.procs[p].killed then ScanRel else SlLk, Held(p)))
  {
    hide Leads, At, HasChild, Next;
    var s0, n := Next(s, Wait(p)), |s.procs|;
    var seen := HasChild(s, p, n);
    var t := At(s, p, Scan(n, seen), Held(p));
    var u := At(s, p, if !seen || s.procs[p].killed then ScanRel else SlLk, Held(p));
    WaitStarts(s, p);
    ScanPast(s, p, n);
    Then(s0, p, At(s, p, Scan(0, false), Held(p)), t);
    AtEnd(s, p, seen);
    Then(s0, p, t, u);
  }

  lemma AtEnd(s: State, p: Pid, seen: bool)
    requires Waits(s, p)
    ensures Leads(At(s, p, Scan(|s.procs|, seen), Held(p)), p,
                  At(s, p, if !seen || s.procs[p].killed then ScanRel else SlLk, Held(p)))
  {
    hide Leads;
    var t := At(s, p, Scan(|s.procs|, seen), Held(p));
    ScanEnds(t, p);
    var u := At(s, p, if !seen || s.procs[p].killed then ScanRel else SlLk, Held(p));
    assert Next(t, Go(p)).procs == u.procs;
    One(t, p, u);
  }

  /** wait with no child, or by a killed process without a zombie child, returns and
      changes nothing. */
  lemma WaitFails(s: State, p: Pid)
    requires Waits(s, p) && s.procs[p].pc == Run && forall q :: 0 <= q < |s.procs| ==> Skipped(s, p, q)
    requires s.procs[p].killed || forall c :: 0 <= c < |s.procs| ==> s.procs[c].parent != Par(p)
    ensures Leads(Next(s, Wait(p)), p, s)
  {
    hide Leads, At, Next;
    ScanAll(s, p);
    WaitEnds(s, p);
    Then(Next(s, Wait(p)), p, At(s, p, ScanRel, Held(p)), s);
  }

  /** s with p's entry and wait_lock as given. */
  function Mine(s: State, p: Pid, pr: Proc, wl: Owner): State
    requires p < |s.procs|
  {
    Upd(s, p, pr).(wl := wl)
  }

  predicate SleepPc(pc: PC) {
    pc.SlLk? || pc.SlRel? || pc.SlChan? || pc.SlMark? || pc.SlOff? || pc.Parked? || pc.Woken? || pc.SlBack?
  }

  lemma SleepStep(s: State, p: Pid, pr: Proc, wl: Owner)
    requires p < |s.procs| && SleepPc(pr.pc)
    requires (pr.pc.SlLk? || pr.pc.Parked? ==> pr.lk == Free) && (pr.pc.Parked? ==> pr.st == Runnable)
    ensures Leads(Mine(s, p, pr, wl), p,
                  match pr.pc
                  case SlLk => Mine(s, p, pr.(lk := Held(p), pc := SlRel), wl)
                  case SlRel => Mine(s, p, pr.(pc := SlChan), Free)
                  case SlChan => Mine(s, p, pr.(chan := OnProc(p), pc := SlMark), wl)
                  case SlMark => Mine(s, p, pr.(st := Sleeping, pc := SlOff), wl)
                  case SlOff => Mine(s, p, pr.(lk := Free, pc := Parked), wl)
                  case Parked => Mine(s, p, pr.(st := Running, lk := Held(p), pc := Woken), wl)
                  case Woken => Mine(s, p, pr.(chan := NoChan, pc := SlBack), wl)
                  case SlBack => Mine(s, p, pr.(lk := Free, pc := WaitLk), wl))
  {
    hide Leads, GoFork, GoExit;
    var t := Mine(s, p, pr, wl);
    var u := Next(t, Go(p));
    assert u.procs == s.procs[p := u.procs[p]];
    One(t, p, u);
  }

  /** s with p asleep in wait. */
  function Asleep(s: State, p: Pid): State
    requires p < |s.procs|
  {
    Upd(s, p, s.procs[p].(st := Sleeping, chan := OnProc(p), pc := Parked))
  }

  lemma Sleeps(s: State, p: Pid)
    requires Waits(s, p) && s.procs[p].pc == Run
    ensures Leads(At(s, p, SlLk, Held(p)), p, Asleep(s, p))
  {
    var r0 := s.procs[p].(pc := SlLk);
    var s0 := Mine(s, p, r0, Held(p));
    assert s0 == At(s, p, SlLk, Held(p));
    var r1 := r0.(lk := Held(p), pc := SlRel);
    var r2 := r1.(pc := SlChan);
    var r3 := r2.(chan := OnProc(p), pc := SlMark);
    var r4 := r3.(st := Sleeping, pc := SlOff);
    var r5 := r4.(lk := Free, pc := Parked);
    assert Mine(s, p, r5, Free) == Asleep(s, p);
    hide Leads, Mine;
    SleepStep(s, p, r0, Held(p));
    SleepStep(s, p, r1, Held(p));
    Then(s0, p, Mine(s, p, r1, Held(p)), Mine(s, p, r2, Free));
    SleepStep(s, p, r2, Free);
    Then(s0, p, Mine(s, p, r2, Free), Mine(s, p, r3, Free));
    SleepStep(s, p, r3, Free);
    Then(s0, p, Mine(s, p, r3, Free), Mine(s, p, r4, Free));
    SleepStep(s, p, r4, Free);
    Then(s0, p, Mine(s, p, r4, Free), Mine(s, p, r5, Free));
  }

  /** wait by a live process with children, none a zombie, goes to sleep on the caller. */
  lemma WaitSleeps(s: State, p: Pid, c: Pid)
    requires Waits(s, p) && s.procs[p].pc == Run && forall q :: 0 <= q < |s.procs| ==> Skipped(s, p, q)
    requires !s.procs[p].killed && c < |s.procs| && s.procs[c].parent == Par(p)
    ensures Leads(Next(s, Wait(p)), p, Asleep(s, p))
  {
    hide Leads, At, Next, Asleep;
    assert HasChild(s, p, |s.procs|);
    ScanAll(s, p);
    Sleeps(s, p);
    Then(Next(s, Wait(p)), p, At(s, p, SlLk, Held(p)), Asleep(s, p));
  }

  /** A process that was woken in wait is back at the start of wait, with its channel
      cleared. */
  lemma WokenWaits(s: State, p: Pid)
    requires Waits(s, p) && s.procs[p].pc == Run && s.procs[p].st == Running && s.procs[p].chan == NoChan
    ensures Leads(Upd(s, p, s.procs[p].(st := Runnable, chan := OnProc(p), pc := Parked)), p, Next(s, Wait(p)))
  {
    var r0 := s.procs[p].(st := Runnable, chan := OnProc(p), pc := Parked);
    var s0 := Upd(s, p, r0);
    assert s0 == Mine(s, p, r0, Free);
    var r1 := r0.(st := Running, lk := Held(p), pc := Woken);
    var r2 := r1.(chan := NoChan, pc := SlBack);
    var r3 := r2.(lk := Free, pc := WaitLk);
    assert r3 == s.procs[p].(pc := WaitLk);
    assert Mine(s, p, r3, Free) == Next(s, Wait(p));
    hide Leads, Mine, Next;
    SleepStep(s, p, r0, Free);
    SleepStep(s, p, r1, Free);
    Then(s0, p, Mine(s, p, r1, Free), Mine(s, p, r2, Free));
    SleepStep(s, p, r2, Free);
    Then(s0, p, Mine(s, p, r2, Free), Mine(s, p, r3, Free));
  }
}
