/** exit of ExitWait, run by one process while no lock is held by another: it gives its
    children away, wakes who waits for it, and becomes a zombie (kernel/proc.c:333-398,
    595-612). */
module ExitCalls {
  import opened ExitWait
  import opened WaitCalls
  import opened ProcCalls

  /** pr after wakeup(chan), if `reached`. */
  function Woken(pr: Proc, chan: Chan, reached: bool): Proc {
    if reached && pr.st == Sleeping && pr.chan == chan then pr.(st := Runnable) else pr
  }

  /** pr after p's reparent, if `reached`. */
  function Adopted(pr: Proc, p: Pid, reached: bool): Proc {
    if reached && pr.parent == Par(p) then pr.(parent := Par(INIT)) else pr
  }

  /** Inside reparent: orphans below i are initproc's; its wakeup has reached j, or
      everybody if `all`. */
  ghost function Giving(s: State, p: Pid, pc: PC, i: nat, j: nat, all: bool): State {
    s.(wl := Held(p), procs := seq(|s.procs|, c requires 0 <= c < |s.procs| =>
      if c == p then s.procs[c].(pc := pc) else Woken(Adopted(s.procs[c], p, c < i), OnProc(INIT), all || c < j)))
  }

  ghost predicate Exits(s: State, p: Pid) {
    Quiet(s) && p < |s.procs| && s.procs[p].parent != Par(p) && p != INIT
  }

  lemma GiveOne(s: State, p: Pid, i: nat, all: bool)
    requires Exits(s, p) && i < |s.procs|
    ensures var t := Giving(s, p, Rep(i), i, 0, all);
            Leads(t, p, if s.procs[i].parent == Par(p) then Giving(s, p, RepWake(i, 0), i + 1, 0, all)
                        else Giving(s, p, Rep(i + 1), i + 1, 0, all))
  {
    hide Leads, GoFork, GoWait;
    var t := Giving(s, p, Rep(i), i, 0, all);
    var u := if s.procs[i].parent == Par(p) then Giving(s, p, RepWake(i, 0), i + 1, 0, all)
             else Giving(s, p, Rep(i + 1), i + 1, 0, all);
    assert Next(t, Go(p)).procs == u.procs;
    One(t, p, u);
  }

  lemma WakeSelf(s: State, p: Pid, i: nat, all: bool)
    requires Exits(s, p)
    ensures Leads(Giving(s, p, RepWake(i, p), i + 1, p, all), p, Giving(s, p, RepWake(i, p + 1), i + 1, p + 1, all))
  {
    hide Leads, GoFork, GoWait;
    var t, u := Giving(s, p, RepWake(i, p), i + 1, p, all), Giving(s, p, RepWake(i, p + 1), i + 1, p + 1, all);
    assert Next(t, Go(p)).procs == u.procs;
    One(t, p, u);
  }

  lemma WakeReach(s: State, p: Pid, i: nat, j: nat, all: bool)
    requires Exits(s, p) && j < |s.procs| && j != p
    ensures Leads(Giving(s, p, RepWake(i, j), i + 1, j, all), p,
                  SetLk(Giving(s, p, RepWakeAt(i, j), i + 1, j, all), j, Held(p)))
  {
    hide Leads, GoFork, GoWait, Woken, Adopted;
    var t := Giving(s, p, RepWake(i, j), i + 1, j, all);
    var m := SetLk(Giving(s, p, RepWakeAt(i, j), i + 1, j, all), j, Held(p));
    SameLk(s, p, i + 1, j, all, j);
    assert Next(t, Go(p)).procs == m.procs;
    One(t, p, m);
  }

  lemma SameLk(s: State, p: Pid, i: nat, j: nat, all: bool, c: Pid)
    requires c < |s.procs|
    ensures Woken(Adopted(s.procs[c], p, c < i), OnProc(INIT), all || c < j).lk == s.procs[c].lk
  {
  }

  lemma WakeOne(s: State, p: Pid, i: nat, j: nat, all: bool)
    requires Exits(s, p) && j < |s.procs| && j != p
    ensures Leads(Giving(s, p, RepWake(i, j), i + 1, j, all), p, Giving(s, p, RepWake(i, j + 1), i + 1, j + 1, all))
  {
    hide Leads, GoFork, GoWait;
    var t, u := Giving(s, p, RepWake(i, j), i + 1, j, all), Giving(s, p, RepWake(i, j + 1), i + 1, j + 1, all);
    var m := SetLk(Giving(s, p, RepWakeAt(i, j), i + 1, j, all), j, Held(p));
    WakeReach(s, p, i, j, all);
    assert Next(m, Go(p)).procs == u.procs;
    One(m, p, u);
    Then(t, p, m, u);
  }

  lemma {:induction false} WakeAll(s: State, p: Pid, i: nat, j: nat, all: bool)
    requires Exits(s, p) && j <= |s.procs|
    ensures Leads(Giving(s, p, RepWake(i, 0), i + 1, 0, all), p, Giving(s, p, RepWake(i, j), i + 1, j, all))
    decreases j
  {
    hide Leads, Giving, Quiet;
    var t := Giving(s, p, RepWake(i, 0), i + 1, 0, all);
    if j == 0 {
      Here(t, p);
    } else {
      WakeAll(s, p, i, j - 1, all);
      if j - 1 == p {
        WakeSelf(s, p, i, all);
      } else {
        WakeOne(s, p, i, j - 1, all);
      }
      Then(t, p, Giving(s, p, RepWake(i, j - 1), i + 1, j - 1, all), Giving(s, p, RepWake(i, j), i + 1, j, all));
    }
  }

  lemma WakeEnds(s: State, p: Pid, i: nat, all: bool)
    requires Exits(s, p)
    ensures Leads(Giving(s, p, RepWake(i, |s.procs|), i + 1, |s.procs|, all), p,
                  Giving(s, p, Rep(i + 1), i + 1, 0, true))
  {
    hide Leads, GoFork, GoWait;
    var t := Giving(s, p, RepWake(i, |s.procs|), i + 1, |s.procs|, all);
    var u := Giving(s, p, Rep(i + 1), i + 1, 0, true);
    assert Next(t, Go(p)).procs == u.procs;
    One(t, p, u);
  }

  /** reparent. */
  lemma {:induction false} GiveAll(s: State, p: Pid, i: nat)
    requires Exits(s, p) && i <= |s.procs|
    ensures Leads(At(s, p, Rep(0), Held(p)), p, Giving(s, p, Rep(i), i, 0, HasChild(s, p, i)))
    decreases i
  {
    hide Leads, Giving, Quiet, HasChild, At;
    var s0 := At(s, p, Rep(0), Held(p));
    if i == 0 {
      NoneBelow(s, p);
      GiveNone(s, p);
      Here(s0, p);
    } else {
      var k, all := i - 1, HasChild(s, p, i - 1);
      GiveAll(s, p, k);
      OneMore(s, p, k);
      GiveOne(s, p, k, all);
      if s.procs[k].parent == Par(p) {
        var t := Giving(s, p, RepWake(k, 0), i, 0, all);
        Then(s0, p, Giving(s, p, Rep(k), k, 0, all), t);
        WakeAll(s, p, k, |s.procs|, all);
        WakeEnds(s, p, k, all);
        Then(s0, p, t, Giving(s, p, RepWake(k, |s.procs|), i, |s.procs|, all));
        Then(s0, p, Giving(s, p, RepWake(k, |s.procs|), i, |s.procs|, all), Giving(s, p, Rep(i), i, 0, true));
      } else {
        Then(s0, p, Giving(s, p, Rep(k), k, 0, all), Giving(s, p, Rep(i), i, 0, all));
      }
    }
  }

  lemma GiveNone(s: State, p: Pid)
    requires p < |s.procs|
    ensures Giving(s, p, Rep(0), 0, 0, false) == At(s, p, Rep(0), Held(p))
  {
    assert Giving(s, p, Rep(0), 0, 0, false).procs == At(s, p, Rep(0), Held(p)).procs;
  }

  /** Inside wakeup(p->parent), which has reached j. */
  ghost function Calling(s: State, p: Pid, pc: PC, j: nat): State
    requires p < |s.procs|
  {
    s.(wl := Held(p), procs := seq(|s.procs|, c requires 0 <= c < |s.procs| =>
      if c == p then s.procs[c].(pc := pc) else Woken(s.procs[c], ParentChan(s.procs[p]), c < j)))
  }

  lemma CallReach(s: State, p: Pid, j: nat)
    requires Exits(s, p) && j < |s.procs| && j != p
    ensures Leads(Calling(s, p, ExWake(j), j), p, SetLk(Calling(s, p, ExWakeAt(j), j), j, Held(p)))
  {
    hide Leads, GoFork, GoWait;
    var t, m := Calling(s, p, ExWake(j), j), SetLk(Calling(s, p, ExWakeAt(j), j), j, Held(p));
    assert Next(t, Go(p)).procs == m.procs;
    One(t, p, m);
  }

  lemma CallOne(s: State, p: Pid, j: nat)
    requires Exits(s, p) && j < |s.procs|
    ensures Leads(Calling(s, p, ExWake(j), j), p, Calling(s, p, ExWake(j + 1), j + 1))
  {
    hide Leads, GoFork, GoWait;
    var t, u := Calling(s, p, ExWake(j), j), Calling(s, p, ExWake(j + 1), j + 1);
    if j == p {
      assert Next(t, Go(p)).procs == u.procs;
      One(t, p, u);
    } else {
      var m := SetLk(Calling(s, p, ExWakeAt(j), j), j, Held(p));
      CallReach(s, p, j);
      assert Next(m, Go(p)).procs == u.procs;
      One(m, p, u);
      Then(t, p, m, u);
    }
  }

  lemma {:induction false} CallAll(s: State, p: Pid, j: nat)
    requires Exits(s, p) && j <= |s.procs|
    ensures Leads(Calling(s, p, ExWake(0), 0), p, Calling(s, p, ExWake(j), j))
    decreases j
  {
    hide Leads, Calling, Quiet;
    var t := Calling(s, p, ExWake(0), 0);
    if j == 0 {
      Here(t, p);
    } else {
      CallAll(s, p, j - 1);
      CallOne(s, p, j - 1);
      Then(t, p, Calling(s, p, ExWake(j - 1), j - 1), Calling(s, p, ExWake(j), j));
    }
  }

  /** What p's exit makes of everybody: its children are initproc's, sleepers on its parent
      are runnable, and on initproc too if it got any of them; p is a zombie. */
  ghost function Gone(s: State, p: Pid): State
    requires p < |s.procs|
  {
    var kids := HasChild(s, p, |s.procs|);
    s.(exited := s.exited + [s.procs[p].pid], procs := seq(|s.procs|, c requires 0 <= c < |s.procs| =>
      if c == p then s.procs[c].(st := Zombie, pc := Dead)
      else Woken(Woken(Adopted(s.procs[c], p, true), OnProc(INIT), kids), ParentChan(s.procs[p]), true)))
  }

  lemma ExitStarts(s: State, p: Pid)
    requires Exits(s, p) && s.procs[p].pc == Run
    ensures Leads(Next(s, Exit(p)), p, At(s, p, Rep(0), Held(p)))
  {
    hide Leads, GoFork, GoWait;
    var t, u := Next(s, Exit(p)), At(s, p, Rep(0), Held(p));
    assert Next(t, Go(p)).procs == u.procs;
    One(t, p, u);
  }

  /** After reparent; no lock is held any more in this view of it. */
  ghost function Orphaned(s: State, p: Pid): State {
    Giving(s, p, Run, |s.procs|, 0, HasChild(s, p, |s.procs|)).(wl := Free)
  }

  lemma GivenUp(s: State, p: Pid)
    requires Exits(s, p)
    ensures Leads(Giving(s, p, Rep(|s.procs|), |s.procs|, 0, HasChild(s, p, |s.procs|)), p,
                  Calling(Orphaned(s, p), p, ExWake(0), 0))
  {
    hide Leads, GoFork, GoWait, HasChild;
    var t := Giving(s, p, Rep(|s.procs|), |s.procs|, 0, HasChild(s, p, |s.procs|));
    var u := Calling(Orphaned(s, p), p, ExWake(0), 0);
    assert Next(t, Go(p)).procs == u.procs;
    One(t, p, u);
  }

  lemma ExitStep(s: State, p: Pid, pr: Proc, wl: Owner)
    requires p < |s.procs| && (pr.pc.ExLk? || pr.pc.ExRel? || pr.pc.ExOff?) && (pr.pc.ExLk? ==> pr.lk == Free)
    ensures Leads(Mine(s, p, pr, wl), p,
                  match pr.pc
                  case ExLk => Mine(s, p, pr.(lk := Held(p), pc := ExMark), wl)
                  case ExRel => Mine(s, p, pr.(pc := ExOff), Free)
                  case ExOff => Mine(s, p, pr.(lk := Free, pc := Dead), wl))
  {
    hide Leads, GoFork, GoWait;
    var t := Mine(s, p, pr, wl);
    var u := Next(t, Go(p));
    assert u.procs == s.procs[p := u.procs[p]];
    One(t, p, u);
  }

  lemma Marks(s: State, p: Pid, pr: Proc, wl: Owner)
    requires p < |s.procs| && pr.pc == ExMark
    ensures Leads(Mine(s, p, pr, wl), p,
                  Mine(s, p, pr.(st := Zombie, pc := ExRel), wl).(exited := s.exited + [pr.pid]))
  {
    hide Leads, GoFork, GoWait;
    var t := Mine(s, p, pr, wl);
    var u := Next(t, Go(p));
    assert u.procs == s.procs[p := u.procs[p]];
    One(t, p, u);
  }

  /** From the end of the wakeups to the end of the process. */
  lemma Dies(s: State, p: Pid)
    requires Exits(s, p)
    ensures var pr := s.procs[p];
            Leads(Mine(s, p, pr.(pc := ExLk), Held(p)), p,
                  Mine(s, p, pr.(st := Zombie, pc := Dead), Free).(exited := s.exited + [pr.pid]))
  {
    hide Leads, Mine;
    var r0 := s.procs[p].(pc := ExLk);
    var s0, s' := Mine(s, p, r0, Held(p)), s.(exited := s.exited + [r0.pid]);
    ExitStep(s, p, r0, Held(p));
    var r1 := r0.(lk := Held(p), pc := ExMark);
    Marks(s, p, r1, Held(p));
    var r2 := r1.(st := Zombie, pc := ExRel);
    MineExited(s, p, r2, Held(p), s'.exited);
    Then(s0, p, Mine(s, p, r1, Held(p)), Mine(s', p, r2, Held(p)));
    ExitStep(s', p, r2, Held(p));
    var r3 := r2.(pc := ExOff);
    Then(s0, p, Mine(s', p, r2, Held(p)), Mine(s', p, r3, Free));
    ExitStep(s', p, r3, Free);
    var r4 := r3.(lk := Free, pc := Dead);
    Then(s0, p, Mine(s', p, r3, Free), Mine(s', p, r4, Free));
    MineExited(s, p, r4, Free, s'.exited);
  }

  lemma MineExited(s: State, p: Pid, pr: Proc, wl: Owner, exited: seq<nat>)
    requires p < |s.procs|
    ensures Mine(s.(exited := exited), p, pr, wl) == Mine(s, p, pr, wl).(exited := exited)
  {
  }

  /** exit, with nobody else in the kernel. */
  lemma ExitAlone(s: State, p: Pid)
    requires Exits(s, p) && s.procs[p].pc == Run
    ensures Leads(Next(s, Exit(p)), p, Gone(s, p))
  {
    hide Leads, Giving, Calling, Next, HasChild, At, Mine;
    var s0, n := Next(s, Exit(p)), |s.procs|;
    ExitStarts(s, p);
    GiveAll(s, p, n);
    var s1 := Giving(s, p, Rep(n), n, 0, HasChild(s, p, n));
    Then(s0, p, At(s, p, Rep(0), Held(p)), s1);
    GivenUp(s, p);
    var o := Orphaned(s, p);
    OrphanedExits(s, p);
    Then(s0, p, s1, Calling(o, p, ExWake(0), 0));
    CallAll(o, p, n);
    Then(s0, p, Calling(o, p, ExWake(0), 0), Calling(o, p, ExWake(n), n));
    var w := Called(o, p);
    Quits(o, p);
    Then(s0, p, Calling(o, p, ExWake(n), n), Mine(w, p, w.procs[p].(pc := ExLk), Held(p)));
    Dies(w, p);
    GoneIs(s, p);
    Then(s0, p, Mine(w, p, w.procs[p].(pc := ExLk), Held(p)), Gone(s, p));
  }

  lemma OrphanedExits(s: State, p: Pid)
    requires Exits(s, p)
    ensures Exits(Orphaned(s, p), p) && |Orphaned(s, p).procs| == |s.procs|
    ensures Orphaned(s, p).procs[p].parent == s.procs[p].parent
  {
    hide HasChild;
  }

  /** After both wakeups. */
  ghost function Called(s: State, p: Pid): State
    requires p < |s.procs|
  {
    Calling(s, p, Run, |s.procs|).(wl := Free)
  }

  lemma Quits(s: State, p: Pid)
    requires Exits(s, p)
    ensures |Called(s, p).procs| == |s.procs| && Exits(Called(s, p), p)
    ensures Leads(Calling(s, p, ExWake(|s.procs|), |s.procs|), p,
                  Mine(Called(s, p), p, Called(s, p).procs[p].(pc := ExLk), Held(p)))
  {
    hide Leads, GoFork, GoWait;
    var w := Called(s, p);
    var t, u := Calling(s, p, ExWake(|s.procs|), |s.procs|), Mine(w, p, w.procs[p].(pc := ExLk), Held(p));
    assert Next(t, Go(p)).procs == u.procs;
    One(t, p, u);
  }

  lemma GoneIs(s: State, p: Pid)
    requires Exits(s, p)
    ensures var o := Orphaned(s, p);
            && |o.procs| == |s.procs| && |Called(o, p).procs| == |s.procs|
            && var w := Called(o, p);
               var pr := w.procs[p];
               Mine(w, p, pr.(st := Zombie, pc := Dead), Free).(exited := w.exited + [pr.pid]) == Gone(s, p)
  {
    hide HasChild;
    var w := Called(Orphaned(s, p), p);
    var pr := w.procs[p];
    assert Mine(w, p, pr.(st := Zombie, pc := Dead), Free).procs == Gone(s, p).procs;
  }

  /** The parent q of p, as it is when woken: back in wait. */
  ghost function Back(s: State, p: Pid, q: Pid): State
    requires p < |s.procs| && q < |s.procs|
  {
    Upd(Gone(s, p), q, s.procs[q].(st := Running, chan := NoChan, pc := Run))
  }

  ghost predicate Expects(s: State, p: Pid, q: Pid) {
    && Exits(s, p) && s.procs[p].pc == Run && s.procs[p].parent == Par(q)
    && q < |s.procs| && q != p && s.procs[q].parent != Par(q) && s.procs[q].parent != Par(p)
    && s.procs[q].st == Sleeping && s.procs[q].chan == OnProc(q) && s.procs[q].pc == Parked
    && (forall c :: 0 <= c < |s.procs| ==> Skipped(s, q, c) && (q == INIT ==> Skipped(s, p, c)))
  }

  lemma BackIs(s: State, p: Pid, q: Pid)
    requires Expects(s, p, q)
    ensures var r := Back(s, p, q);
            && Waits(r, q) && |r.procs| == |s.procs| && r.procs[p] == s.procs[p].(st := Zombie, pc := Dead)
            && r.reaped == s.reaped
            && Gone(s, p) == Upd(r, q, r.procs[q].(st := Runnable, chan := OnProc(q), pc := Parked))
            && forall c :: 0 <= c < p ==> Skipped(r, q, c)
  {
    hide HasChild;
    var r := Back(s, p, q);
    assert Gone(s, p).procs == Upd(r, q, r.procs[q].(st := Runnable, chan := OnProc(q), pc := Parked)).procs;
    forall c | 0 <= c < p ensures Skipped(r, q, c) {
      assert Skipped(s, q, c) && (q == INIT ==> Skipped(s, p, c));
    }
  }

  /** The exit of a child ends its parent's wait: the parent, asleep in wait, is woken,
      finds p and reports its pid, and p's slot is free again. */
  lemma ExitEndsWait(s: State, p: Pid, q: Pid)
    requires Expects(s, p, q)
    ensures Leads(Next(s, Exit(p)), p, Gone(s, p))
    ensures exists u :: Leads(Gone(s, p), q, u) && u.reaped == s.reaped + [s.procs[p].pid]
                        && p < |u.procs| && q < |u.procs| && u.procs[p].st == Unused && u.procs[q].pc == Run
  {
    hide Leads, Gone, Next, Skipped;
    ExitAlone(s, p);
    BackIs(s, p, q);
    var r := Back(s, p, q);
    WokenWaits(r, q);
    WaitReaps(r, q, p);
    Then(Gone(s, p), q, Next(r, Wait(q)), Collected(r, p));
  }
}
