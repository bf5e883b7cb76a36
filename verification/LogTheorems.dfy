/** What the log promises over whole runs: crash consistency with group commit, agreement
    of cache and log, and when begin_op's reservation is enough. */
module LogTheorems {
  import opened Common
  import opened Blocks
  import opened LogSpec
  import opened LogMachine
  import opened LogMachineInv

  // ---- Group commit ----

  lemma StepKeepsBase(lay: Layout, s: State, a: Action)
    requires Enabled(lay, s, a)
    ensures Next(lay, s, a).c.base == s.c.base
  {
  }

  lemma {:induction false} RunKeepsBase(lay: Layout, s: State, acts: seq<Action>, s': State)
    requires Run(lay, s, acts, s')
    ensures s'.c.base == s.c.base
    decreases |acts|
  {
    hide Enabled, Next;
    if acts != [] {
      StepKeepsBase(lay, s, acts[0]);
      RunKeepsBase(lay, Next(lay, s, acts[0]), acts[1..], s');
    }
  }

  /** In every state any interleaving of operations, commits and crashes can reach,
      recovering the disk gives the first image plus exactly the committed groups, and
      each group holds whole operations that have ended. */
  lemma GroupCommit(lay: Layout, image: DiskImage, t: Tid, s: State)
    requires Recoverable(lay, image) && Reachable(lay, image, t, s)
    ensures Recoverable(lay, s.c.disk)
    ensures SameHome(lay, Recover(lay, s.c.disk), ApplyGroups(Recover(lay, image), s.c.groups))
    ensures forall g :: 0 <= g < |s.c.groups| ==> WholeGroup(s.c, g)
    ensures s.c.committing ==> s.c.outstanding == 0
  {
    hide Run, GoodBufs, Recover;
    ReachableInv(lay, image, t, s);
    var acts :| Run(lay, Init(lay, image, t), acts, s);
    RunKeepsBase(lay, Init(lay, image, t), acts, s);
  }

  /** Groups are only ever added at the end, one per header write: a later crash keeps
      every group committed before it. */
  lemma {:induction false} CommittedStays(lay: Layout, s: State, acts: seq<Action>, s': State)
    requires Run(lay, s, acts, s')
    ensures s.c.groups <= s'.c.groups
    decreases |acts|
  {
    if acts != [] {
      assert s.c.groups <= Next(lay, s, acts[0]).c.groups;
      CommittedStays(lay, Next(lay, s, acts[0]), acts[1..], s');
    }
  }

  // ---- Durability ----

  predicate NoCrash(acts: seq<Action>) {
    forall i :: 0 <= i < |acts| ==> !acts[i].Crash?
  }

  /** The events of all groups, in the order of the log. */
  function Flat(groups: seq<seq<Event>>): seq<Event> {
    if groups == [] then [] else Flat(groups[..|groups| - 1]) + groups[|groups| - 1]
  }

  /** No step but a crash drops an event: committed groups and the group being built
      grow by what is logged. */
  lemma StepKeepsEvents(lay: Layout, s: State, a: Action)
    requires Enabled(lay, s, a) && !a.Crash?
    ensures var c, c' := s.c, Next(lay, s, a).c;
            c.trace <= c'.trace && Flat(c'.groups) + c'.cur == Flat(c.groups) + c.cur + c'.trace[|c.trace|..]
  {
    hide Flat, Next;
    var c, c' := s.c, Next(lay, s, a).c;
    if a.LogWrite? {
      LogWriteEvents(lay, s, a);
      assert c'.trace[|c.trace|..] == [c'.trace[|c.trace|]];
    } else if a.WriteHead? {
      WriteHeadEvents(lay, s, a);
      FlatMore(c.groups, c.cur);
      assert c'.trace[|c.trace|..] == [];
    } else {
      OtherEvents(lay, s, a);
      assert c'.trace[|c.trace|..] == [];
    }
  }

  lemma FlatMore(groups: seq<seq<Event>>, g: seq<Event>)
    ensures Flat(groups + [g]) == Flat(groups) + g
  {
    assert (groups + [g])[..|groups|] == groups;
  }

  lemma LogWriteEvents(lay: Layout, s: State, a: Action)
    requires Enabled(lay, s, a) && a.LogWrite?
    ensures var c, c' := s.c, Next(lay, s, a).c;
            c'.groups == c.groups && exists e :: c'.trace == c.trace + [e] && c'.cur == c.cur + [e]
  {
  }

  lemma WriteHeadEvents(lay: Layout, s: State, a: Action)
    requires Enabled(lay, s, a) && a.WriteHead?
    ensures var c, c' := s.c, Next(lay, s, a).c;
            c'.groups == c.groups + [c.cur] && c'.trace == c.trace && c'.cur == []
  {
    hide EncodeHead;
  }

  lemma OtherEvents(lay: Layout, s: State, a: Action)
    requires Enabled(lay, s, a) && !a.Crash? && !a.LogWrite? && !a.WriteHead?
    ensures var c, c' := s.c, Next(lay, s, a).c; c'.groups == c.groups && c'.trace == c.trace && c'.cur == c.cur
  {
    hide EncodeHead, DecodeHead, HeadOk, CanBegin, CanEnd;
  }

  lemma {:induction false} RunKeepsEvents(lay: Layout, s: State, acts: seq<Action>, s': State)
    requires Run(lay, s, acts, s') && NoCrash(acts)
    ensures s.c.trace <= s'.c.trace
    ensures Flat(s'.c.groups) + s'.c.cur == Flat(s.c.groups) + s.c.cur + s'.c.trace[|s.c.trace|..]
    decreases |acts|
  {
    hide Enabled, Next, Flat;
    if acts != [] {
      var s1 := Next(lay, s, acts[0]);
      StepKeepsEvents(lay, s, acts[0]);
      RunKeepsEvents(lay, s1, acts[1..], s');
      assert s'.c.trace[|s.c.trace|..] == s1.c.trace[|s.c.trace|..] + s'.c.trace[|s1.c.trace|..];
    }
  }

  lemma {:induction false} FlatMember(groups: seq<seq<Event>>, e: Event) returns (g: nat)
    requires e in Flat(groups)
    ensures g < |groups| && e in groups[g]
  {
    if e in groups[|groups| - 1] {
      g := |groups| - 1;
    } else {
      g := FlatMember(groups[..|groups| - 1], e);
    }
  }

  // The last end_op commits: with no operation open and no commit running, nothing waits.

  ghost predicate Settled(c: Core) {
    c.phase == Idle && c.outstanding == 0 ==> c.lh == [] && c.cur == []
  }

  lemma SettledStep(lay: Layout, s: State, a: Action)
    requires Inv(lay, s) && Settled(s.c) && Enabled(lay, s, a)
    ensures Settled(Next(lay, s, a).c)
  {
    hide Inv, EncodeHead, DecodeHead, HeadOk;
    NothingWaits(lay, s);
  }

  lemma NothingWaits(lay: Layout, s: State)
    requires Inv(lay, s)
    ensures Booting(s.c) || s.c.phase.Finishing? ==> s.c.cur == []
    ensures s.c.phase.Finishing? ==> s.c.lh == []
  {
    hide GoodBufs, GoodGroups, Recover;
  }

  lemma {:induction false} SettledRun(lay: Layout, s: State, acts: seq<Action>, s': State)
    requires Inv(lay, s) && Settled(s.c) && Run(lay, s, acts, s')
    ensures Settled(s'.c)
    decreases |acts|
  {
    hide Inv, Settled, Enabled, Next;
    if acts != [] {
      StepInv(lay, s, acts[0]);
      SettledStep(lay, s, acts[0]);
      SettledRun(lay, Next(lay, s, acts[0]), acts[1..], s');
    }
  }

  /** In every reachable state with no operation open and no commit running, no block is
      listed and every event logged since the last boot has been committed. */
  lemma LastOutCommits(lay: Layout, image: DiskImage, t: Tid, s: State)
    requires Recoverable(lay, image) && Reachable(lay, image, t, s) && s.c.phase == Idle && s.c.outstanding == 0
    ensures s.c.lh == [] && s.c.cur == []
  {
    hide Run, Recover, Inv;
    var acts :| Run(lay, Init(lay, image, t), acts, s);
    InitInv(lay, image, t);
    SettledRun(lay, Init(lay, image, t), acts, s);
  }

  /** Once a commit has written its header, and whenever all operations have ended and no
      commit is running, everything logged since the last boot (at s) is in the committed
      groups, in order, and every later run, crashes included, keeps it there and recovers
      it. */
  lemma Durability(lay: Layout, image: DiskImage, t: Tid, s: State, acts: seq<Action>, s1: State,
    later: seq<Action>, s2: State)
    requires Recoverable(lay, image) && Reachable(lay, image, t, s) && s.c.phase == Boot
    requires Run(lay, s, acts, s1) && NoCrash(acts)
    requires s1.c.phase.Installing? || s1.c.phase == Finishing || (s1.c.phase == Idle && s1.c.outstanding == 0)
    requires Run(lay, s1, later, s2)
    ensures s.c.trace <= s1.c.trace && Flat(s1.c.groups) == Flat(s.c.groups) + s1.c.trace[|s.c.trace|..]
    ensures s1.c.groups <= s2.c.groups && Recoverable(lay, s2.c.disk)
    ensures SameHome(lay, Recover(lay, s2.c.disk), ApplyGroups(Recover(lay, image), s2.c.groups))
    ensures forall k :: |s.c.trace| <= k < |s1.c.trace| ==>
              exists g :: 0 <= g < |s2.c.groups| && s1.c.trace[k] in s2.c.groups[g] && WholeGroup(s2.c, g)
  {
    hide Run, Flat, Recover, WholeGroup, GoodBufs, GoodOps, SameHome;
    NoneBuilding(lay, image, t, s);
    ReachOn(lay, image, t, s, acts, s1);
    ReachOn(lay, image, t, s1, later, s2);
    NoneBuilding(lay, image, t, s1);
    RunKeepsEvents(lay, s, acts, s1);
    assert Flat(s.c.groups) + [] == Flat(s.c.groups) && Flat(s1.c.groups) + [] == Flat(s1.c.groups);
    CommittedStays(lay, s1, later, s2);
    GroupCommit(lay, image, t, s2);
    forall k | |s.c.trace| <= k < |s1.c.trace|
      ensures exists g :: 0 <= g < |s2.c.groups| && s1.c.trace[k] in s2.c.groups[g] && WholeGroup(s2.c, g)
    {
      var news := s1.c.trace[|s.c.trace|..];
      assert s1.c.trace[k] == news[k - |s.c.trace|];
      var g := FlatMember(s1.c.groups, s1.c.trace[k]);
      assert s2.c.groups[g] == s1.c.groups[g];
    }
  }

  /** At boot, from the header write to the end of a commit, and with nothing open, no
      group is being built. */
  lemma NoneBuilding(lay: Layout, image: DiskImage, t: Tid, s: State)
    requires Recoverable(lay, image) && Reachable(lay, image, t, s)
    requires || s.c.phase == Boot || s.c.phase.Installing? || s.c.phase == Finishing
             || (s.c.phase == Idle && s.c.outstanding == 0)
    ensures s.c.cur == []
  {
    hide Run, GoodBufs, GoodOps, GoodGroups, Recover;
    ReachableInv(lay, image, t, s);
    if s.c.phase == Idle {
      LastOutCommits(lay, image, t, s);
    }
  }

  lemma ReachOn(lay: Layout, image: DiskImage, t: Tid, s: State, acts: seq<Action>, s': State)
    requires Recoverable(lay, image) && Reachable(lay, image, t, s) && Run(lay, s, acts, s')
    ensures Reachable(lay, image, t, s')
  {
    hide Run, Recover;
    var first :| Run(lay, Init(lay, image, t), first, s);
    RunJoin(lay, Init(lay, image, t), first, s, acts, s');
  }

  lemma {:induction false} RunJoin(lay: Layout, s0: State, first: seq<Action>, s: State, acts: seq<Action>, s': State)
    requires Run(lay, s0, first, s) && Run(lay, s, acts, s')
    ensures Run(lay, s0, first + acts, s')
    decreases |first|
  {
    hide Enabled, Next;
    if first == [] {
      assert first + acts == acts;
    } else {
      RunJoin(lay, Next(lay, s0, first[0]), first[1..], s, acts, s');
      assert (first + acts)[1..] == first[1..] + acts;
    }
  }

  // ---- Cache and log ----

  /** While a block waits for commit it is cached with exactly one pin on top of its
      references, so it cannot be recycled; once nothing waits, no pin is left. */
  lemma OnePinEach(lay: Layout, image: DiskImage, t: Tid, s: State)
    requires Recoverable(lay, image) && Reachable(lay, image, t, s)
    ensures forall i :: PinFrom(s.c) <= i < |s.c.lh| ==>
              var b := s.c.lh[i];
              && b in s.bufs && s.bufs[b].valid && s.bufs[b].refcnt == |s.bufs[b].refs| + 1 && !CanEvict(s, b)
    ensures s.c.lh == [] || Booting(s.c) ==> forall b :: b in s.bufs ==> s.bufs[b].refcnt == |s.bufs[b].refs|
  {
    ReachableInv(lay, image, t, s);
    hide GoodDisk, GoodOps, GoodGroups, View;
    forall i | PinFrom(s.c) <= i < |s.c.lh|
      ensures s.c.lh[i] in s.bufs && s.bufs[s.c.lh[i]].valid
              && s.bufs[s.c.lh[i]].refcnt == |s.bufs[s.c.lh[i]].refs| + 1
    {
      assert GoodBuf(lay, s.c, s.c.lh[i], s.bufs[s.c.lh[i]]);
      assert Pinned(s.c, s.c.lh[i]);
    }
    if s.c.lh == [] || Booting(s.c) {
      forall b | b in s.bufs ensures s.bufs[b].refcnt == |s.bufs[b].refs| {
        assert GoodBuf(lay, s.c, b, s.bufs[b]);
        assert !Pinned(s.c, b);
      }
    }
  }

  /** `j` is the last event of `es` on block b. */
  ghost predicate LastOn(es: seq<Event>, b: nat, j: nat) {
    j < |es| && es[j].bno == b && forall i :: j < i < |es| ==> es[i].bno != b
  }

  lemma {:induction false} LastEventWins(d: DiskImage, es: seq<Event>, b: nat, j: nat)
    requires b < |d| && LastOn(es, b, j)
    ensures ApplyEvents(d, es)[b] == es[j].data
  {
    if j < |es| - 1 {
      LastEventWins(d, es[..|es| - 1], b, j);
    }
  }

  lemma {:induction false} HasLast(es: seq<Event>, b: nat) returns (j: nat)
    requires Logs(es, b)
    ensures LastOn(es, b, j)
  {
    if es[|es| - 1].bno == b {
      j := |es| - 1;
    } else {
      var i :| 0 <= i < |es| && es[i].bno == b;
      assert es[..|es| - 1][i].bno == b;
      j := HasLast(es[..|es| - 1], b);
    }
  }

  /** write_log copies to slot k exactly the content of the last log_write of that block. */
  lemma CopiesLastLogged(lay: Layout, image: DiskImage, t: Tid, s: State) returns (j: nat)
    requires Recoverable(lay, image) && Reachable(lay, image, t, s) && CanCopyToLog(lay, s)
    ensures LastOn(s.c.cur, s.c.lh[s.c.phase.k], j)
    ensures DoCopyToLog(lay, s).c.disk[Slot(lay, s.c.phase.k)] == s.c.cur[j].data
  {
    hide Run, Recover, DecodeHead, HeadOk, GoodGroups;
    ReachableInv(lay, image, t, s);
    var b := s.c.lh[s.c.phase.k];
    PhaseFacts(lay, s.c);
    assert Home(lay, s.c.disk, b);
    QuietBuffer(lay, s, b);
    assert Logs(s.c.cur, b);
    j := HasLast(s.c.cur, b);
    LastEventWins(Committed(s.c), s.c.cur, b, j);
  }

  /** The side conditions some steps carry are never what stops them. */
  lemma StepsNotStuck(lay: Layout, image: DiskImage, t: Tid, s: State)
    requires Recoverable(lay, image) && Reachable(lay, image, t, s)
    ensures forall b :: b in s.bufs ==> b < |s.c.disk| && (s.bufs[b].owner.Held? ==> s.bufs[b].refcnt > 0)
    ensures s.c.ops != [] ==> !s.c.committing && s.c.outstanding >= 1
    ensures forall k :: 0 <= k < |s.c.lh| ==> Slot(lay, k) < |s.c.disk| && s.c.lh[k] < |s.c.disk| && s.c.lh[k] < UINT32
    ensures |s.c.lh| <= LOGSIZE && lay.start < |s.c.disk|
    ensures s.c.phase.Installing? && s.c.phase.k < |s.c.lh| ==>
              s.c.lh[s.c.phase.k] in s.bufs && s.bufs[s.c.lh[s.c.phase.k]].refcnt > 0
    ensures s.c.phase == Boot && lay.start in s.bufs && s.bufs[lay.start].valid ==> HeadOk(s.bufs[lay.start].data)
  {
    hide Run, Recover, GoodGroups, View;
    ReachableInv(lay, image, t, s);
    PhaseFacts(lay, s.c);
    forall b | b in s.bufs ensures b < |s.c.disk| && (s.bufs[b].owner.Held? ==> s.bufs[b].refcnt > 0) {
      assert GoodBuf(lay, s.c, b, s.bufs[b]);
    }
    assert forall k :: 0 <= k < |s.c.lh| ==> Home(lay, s.c.disk, s.c.lh[k]);
    if s.c.phase.Installing? && s.c.phase.k < |s.c.lh| {
      var b := s.c.lh[s.c.phase.k];
      assert Pinned(s.c, b);
      assert GoodBuf(lay, s.c, b, s.bufs[b]);
    }
    if lay.start in s.bufs {
      assert GoodBuf(lay, s.c, lay.start, s.bufs[lay.start]);
    }
  }
}
