/** fork, exit and wait (kernel/proc.c:103-176, 283-467, 567-639), one step per lock
    operation or memory access. Process 0 is initproc. */
module ExitWait {

  type Pid = nat

  const INIT: Pid := 0

  datatype Owner = Free | Held(p: Pid)
  datatype ProcState = Unused | Used | Sleeping | Runnable | Running | Zombie
  datatype Chan = NoChan | OnProc(q: Pid)
  datatype Parent = NoParent | Par(q: Pid)

  /** Where a process is; comments say which spin-locks it holds (wl is wait_lock). */
  datatype PC =
    | Off                      // the slot has no process, or one still being made
    | Run                      // none
    | ForkInit(np: Pid)        // np's lock: slot found and marked USED
    | ForkPar(np: Pid)         // none: about to take wl
    | ForkSet(np: Pid)         // wl: about to set np->parent
    | ForkRel(np: Pid)         // wl
    | ForkRun(np: Pid)         // none: about to take np's lock
    | ForkMark(np: Pid)        // np's lock: about to set np->state
    | NewBorn                  // none: made but never scheduled
    | BornBack                 // own lock: forkret
    | ExitLk                   // none: about to take wl
    | Rep(i: nat)              // wl: reparent is at process i
    | RepWake(i: nat, j: nat)  // wl: wakeup(initproc) inside it is at process j
    | RepWakeAt(i: nat, j: nat)// wl, j's lock
    | ExWake(j: nat)           // wl: wakeup(p->parent) is at process j
    | ExWakeAt(j: nat)         // wl, j's lock
    | ExLk                     // wl: about to take its own lock
    | ExMark                   // wl, own lock: about to become a zombie
    | ExRel                    // wl, own lock: about to release wl
    | ExOff                    // own lock: about to switch away for good
    | Dead                     // none
    | WaitLk                   // none: about to take wl
    | Scan(i: nat, kids: bool) // wl
    | ScanAt(i: nat)           // wl, i's lock
    | ScanFree(i: nat)         // wl, i's lock: i has been freed
    | ScanRel                  // wl: about to return
    | SlLk                     // wl: sleep(p, wl), about to take its own lock
    | SlRel                    // wl, own lock
    | SlChan                   // own lock: about to set chan
    | SlMark                   // own lock: about to set SLEEPING
    | SlOff                    // own lock: about to switch away
    | Parked                   // none: off the CPU
    | Woken                    // own lock
    | SlBack                   // own lock
    | KillAt(q: Pid)           // q's lock

  /** pid is p->pid; `maker` (who is forking a USED slot) is bookkeeping. */
  datatype Proc = Proc(st: ProcState, chan: Chan, parent: Parent, pid: nat, lk: Owner, pc: PC, killed: bool, maker: Pid)

  /** `exited` and `reaped` list pids in the order they became zombies and were freed. */
  datatype State = State(procs: seq<Proc>, wl: Owner, nextPid: nat, exited: seq<nat>, reaped: seq<nat>)

  datatype Action =
    | Fork(p: Pid, np: Pid)
    | ForkFail(p: Pid)
    | Exit(p: Pid)
    | Wait(p: Pid)
    | WaitFail(p: Pid)
    | Kill(p: Pid, q: Pid)
    | Go(p: Pid)

  // ---- Steps ----

  function Upd(s: State, p: Pid, pr: Proc): State
    requires p < |s.procs|
  {
    s.(procs := s.procs[p := pr])
  }

  function SetPc(s: State, p: Pid, pc: PC): State
    requires p < |s.procs|
  {
    Upd(s, p, s.procs[p].(pc := pc))
  }

  function SetLk(s: State, q: Pid, lk: Owner): State
    requires q < |s.procs|
  {
    Upd(s, q, s.procs[q].(lk := lk))
  }

  /** freeproc. */
  function Freed(pr: Proc): Proc {
    pr.(st := Unused, chan := NoChan, parent := NoParent, pid := 0, pc := Off, killed := false)
  }

  /** The body of wakeup's loop. */
  function Roused(pr: Proc, chan: Chan): Proc {
    pr.(lk := Free, st := if pr.st == Sleeping && pr.chan == chan then Runnable else pr.st)
  }

  predicate Names(n: nat, pc: PC) {
    match pc
    case ForkInit(np) => np < n
    case ForkPar(np) => np < n
    case ForkSet(np) => np < n
    case ForkRel(np) => np < n
    case ForkRun(np) => np < n
    case ForkMark(np) => np < n
    case RepWakeAt(_, j) => j < n
    case ExWakeAt(j) => j < n
    case ScanAt(i) => i < n
    case ScanFree(i) => i < n
    case KillAt(q) => q < n
    case _ => true
  }

  /** The channel wakeup(p->parent) looks for. */
  function ParentChan(pr: Proc): Chan {
    match pr.parent
    case NoParent => NoChan
    case Par(q) => OnProc(q)
  }

  predicate CanGo(s: State, p: Pid) {
    && p < |s.procs| && Names(|s.procs|, s.procs[p].pc)
    && var pr := s.procs[p];
       match pr.pc
       case Off => false
       case Run => false
       case Dead => false
       case ForkPar(_) => s.wl == Free
       case ForkRun(np) => s.procs[np].lk == Free
       case NewBorn => pr.st == Runnable && pr.lk == Free
       case ExitLk => s.wl == Free
       case RepWake(_, j) => j < |s.procs| && j != p ==> s.procs[j].lk == Free
       case ExWake(j) => j < |s.procs| && j != p ==> s.procs[j].lk == Free
       case ExLk => pr.lk == Free
       case WaitLk => s.wl == Free
       case Scan(i, _) => i < |s.procs| && s.procs[i].parent == Par(p) ==> s.procs[i].lk == Free
       case SlLk => pr.lk == Free
       case Parked => pr.st == Runnable && pr.lk == Free
       case _ => true
  }

  function GoFork(s: State, p: Pid): State
    requires CanGo(s, p)
  {
    var pr := s.procs[p];
    match pr.pc
    case ForkInit(np) => SetPc(SetLk(s, np, Free), p, ForkPar(np))
    case ForkPar(np) => SetPc(s.(wl := Held(p)), p, ForkSet(np))
    case ForkSet(np) => SetPc(Upd(s, np, s.procs[np].(parent := Par(p))), p, ForkRel(np))
    case ForkRel(np) => SetPc(s.(wl := Free), p, ForkRun(np))
    case ForkRun(np) => SetPc(SetLk(s, np, Held(p)), p, ForkMark(np))
    case ForkMark(np) => SetPc(Upd(s, np, s.procs[np].(st := Runnable, lk := Free, pc := NewBorn)), p, Run)
    case NewBorn => Upd(s, p, pr.(st := Running, lk := Held(p), pc := BornBack))
    case BornBack => Upd(s, p, pr.(lk := Free, pc := Run))
    case _ => s
  }

  function GoExit(s: State, p: Pid): State
    requires CanGo(s, p)
  {
    var pr, n := s.procs[p], |s.procs|;
    match pr.pc
    case ExitLk => SetPc(s.(wl := Held(p)), p, Rep(0))
    case Rep(i) =>
      if i >= n then SetPc(s, p, ExWake(0))
      else if s.procs[i].parent == Par(p) then SetPc(Upd(s, i, s.procs[i].(parent := Par(INIT))), p, RepWake(i, 0))
      else SetPc(s, p, Rep(i + 1))
    case RepWake(i, j) =>
      if j >= n then SetPc(s, p, Rep(i + 1))
      else if j == p then SetPc(s, p, RepWake(i, j + 1))
      else SetPc(SetLk(s, j, Held(p)), p, RepWakeAt(i, j))
    case RepWakeAt(i, j) => SetPc(Upd(s, j, Roused(s.procs[j], OnProc(INIT))), p, RepWake(i, j + 1))
    case ExWake(j) =>
      if j >= n then SetPc(s, p, ExLk)
      else if j == p then SetPc(s, p, ExWake(j + 1))
      else SetPc(SetLk(s, j, Held(p)), p, ExWakeAt(j))
    case ExWakeAt(j) => SetPc(Upd(s, j, Roused(s.procs[j], ParentChan(pr))), p, ExWake(j + 1))
    case ExLk => Upd(s, p, pr.(lk := Held(p), pc := ExMark))
    case ExMark => Upd(s, p, pr.(st := Zombie, pc := ExRel)).(exited := s.exited + [pr.pid])
    case ExRel => SetPc(s.(wl := Free), p, ExOff)
    case ExOff => Upd(s, p, pr.(lk := Free, pc := Dead))
    case _ => s
  }

  /** wait has found a zombie: freeproc of i by p. */
  function Reap(s: State, p: Pid, i: Pid): State
    requires p < |s.procs| && i < |s.procs|
  {
    SetPc(Upd(s, i, Freed(s.procs[i])), p, ScanFree(i)).(reaped := s.reaped + [s.procs[i].pid])
  }

  function GoWait(s: State, p: Pid): State
    requires CanGo(s, p)
  {
    var pr, n := s.procs[p], |s.procs|;
    match pr.pc
    case WaitLk => SetPc(s.(wl := Held(p)), p, Scan(0, false))
    case Scan(i, kids) =>
      if i >= n then SetPc(s, p, if !kids || pr.killed then ScanRel else SlLk)
      else if s.procs[i].parent == Par(p) then SetPc(SetLk(s, i, Held(p)), p, ScanAt(i))
      else SetPc(s, p, Scan(i + 1, kids))
    case ScanAt(i) =>
      if s.procs[i].st == Zombie then
        Reap(s, p, i)
      else SetPc(SetLk(s, i, Free), p, Scan(i + 1, true))
    case ScanFree(i) => SetPc(SetLk(s, i, Free), p, ScanRel)
    case ScanRel => SetPc(s.(wl := Free), p, Run)
    case SlLk => Upd(s, p, pr.(lk := Held(p), pc := SlRel))
    case SlRel => SetPc(s.(wl := Free), p, SlChan)
    case SlChan => Upd(s, p, pr.(chan := OnProc(p), pc := SlMark))
    case SlMark => Upd(s, p, pr.(st := Sleeping, pc := SlOff))
    case SlOff => Upd(s, p, pr.(lk := Free, pc := Parked))
    case Parked => Upd(s, p, pr.(st := Running, lk := Held(p), pc := Woken))
    case Woken => Upd(s, p, pr.(chan := NoChan, pc := SlBack))
    case SlBack => Upd(s, p, pr.(lk := Free, pc := WaitLk))
    case _ => s
  }

  predicate InFork(pc: PC) {
    pc.ForkInit? || pc.ForkPar? || pc.ForkSet? || pc.ForkRel? || pc.ForkRun? || pc.ForkMark?
  }

  predicate ForkPc(pc: PC) {
    InFork(pc) || pc.NewBorn? || pc.BornBack?
  }

  predicate ExitPc(pc: PC) {
    || pc.ExitLk? || pc.Rep? || pc.RepWake? || pc.RepWakeAt? || pc.ExWake? || pc.ExWakeAt? || pc.ExLk? || pc.ExMark?
    || pc.ExRel? || pc.ExOff?
  }

  predicate Enabled(s: State, a: Action) {
    match a
    case Fork(p, np) => p < |s.procs| && np < |s.procs| && s.procs[p].pc == Run && s.procs[np].st == Unused
      && s.procs[np].lk == Free
    case ForkFail(p) => p < |s.procs| && s.procs[p].pc.ForkInit? && s.procs[p].pc.np < |s.procs|
    case Exit(p) => p < |s.procs| && s.procs[p].pc == Run && p != INIT
    case Wait(p) => p < |s.procs| && s.procs[p].pc == Run
    case WaitFail(p) => p < |s.procs| && s.procs[p].pc.ScanAt? && s.procs[p].pc.i < |s.procs|
      && s.procs[s.procs[p].pc.i].st == Zombie
    case Kill(p, q) => p < |s.procs| && q < |s.procs| && s.procs[p].pc == Run && s.procs[q].lk == Free
    case Go(p) => CanGo(s, p)
  }

  function Next(s: State, a: Action): State
    requires Enabled(s, a)
  {
    match a
    case Fork(p, np) =>
      SetPc(Upd(s, np, s.procs[np].(st := Used, pid := s.nextPid, lk := Held(p), maker := p)), p,
        ForkInit(np)).(nextPid := s.nextPid + 1)
    case ForkFail(p) =>
      var np := s.procs[p].pc.np;
      SetPc(Upd(s, np, Freed(s.procs[np]).(lk := Free)), p, Run)
    case Exit(p) => SetPc(s, p, ExitLk)
    case Wait(p) => SetPc(s, p, WaitLk)
    case WaitFail(p) => SetPc(SetLk(s, s.procs[p].pc.i, Free), p, ScanRel)
    case Kill(p, q) => SetPc(SetLk(s, q, Held(p)), p, KillAt(q))
    case Go(p) =>
      var pc := s.procs[p].pc;
      if ForkPc(pc) then GoFork(s, p)
      else if ExitPc(pc) then GoExit(s, p)
      else if pc.KillAt? then
        var v := s.procs[pc.q];
        SetPc(Upd(s, pc.q, v.(lk := Free, killed := true, st := if v.st == Sleeping then Runnable else v.st)), p, Run)
      else GoWait(s, p)
  }

  /** initproc runs; every other slot is unused. */
  function Init(n: nat): State {
    State(seq(n, i => if i == INIT then Proc(Running, NoChan, NoParent, 1, Free, Run, false, 0)
                      else Proc(Unused, NoChan, NoParent, 0, Free, Off, false, 0)), Free, 2, [], [])
  }

  ghost predicate Reachable(s: State, n: nat, acts: seq<Action>)
    decreases |acts|
  {
    if acts == [] then s == Init(n)
    else
      var m := |acts| - 1;
      exists r :: Reachable(r, n, acts[..m]) && Enabled(r, acts[m]) && s == Next(r, acts[m])
  }
}
