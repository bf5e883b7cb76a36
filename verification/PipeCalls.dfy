/** What callers of pipewrite and piperead get, in terms of the calls made
    (kernel/pipe.c:76-130). */
module PipeCalls {
  import opened Common
  import opened Pipe

  // ---- From the actions of a run alone ----

  /** What p passed to its last pipewrite. */
  function SrcOf(acts: seq<Action>, p: nat): seq<Byte> {
    if acts == [] then []
    else
      var n := |acts| - 1;
      if acts[n].WStart? && acts[n].p == p then acts[n].src else SrcOf(acts[..n], p)
  }

  /** How many bytes of it p has stored. */
  function PutBy(acts: seq<Action>, p: nat): nat {
    if acts == [] then 0
    else
      var n := |acts| - 1;
      if acts[n].WStart? && acts[n].p == p then 0
      else PutBy(acts[..n], p) + if acts[n].WByte? && acts[n].p == p then 1 else 0
  }

  /** The bytes that pipewrite calls were given, in the order they went into the pipe. */
  function Sent(acts: seq<Action>): seq<Byte> {
    if acts == [] then []
    else
      var n := |acts| - 1;
      Sent(acts[..n]) +
      if acts[n].WByte? && PutBy(acts[..n], acts[n].p) < |SrcOf(acts[..n], acts[n].p)|
      then [SrcOf(acts[..n], acts[n].p)[PutBy(acts[..n], acts[n].p)]] else []
  }

  /** What p's last piperead asked for. */
  function Wanted(acts: seq<Action>, p: nat): nat {
    if acts == [] then 0
    else
      var n := |acts| - 1;
      if acts[n].RStart? && acts[n].p == p then acts[n].n else Wanted(acts[..n], p)
  }

  predicate Closed(acts: seq<Action>, writable: bool) {
    Close(writable) in acts
  }

  // ---- The machine agrees ----

  predicate Writing(pc: PC) {
    pc.W? || pc.WSleep? || pc.WWoken?
  }

  predicate Reading(pc: PC) {
    pc.R0? || pc.RSleep? || pc.RWoken? || pc.R?
  }

  ghost predicate CallOk(s: State, acts: seq<Action>, p: nat)
    requires p < |s.pcs|
  {
    && (Writing(s.pcs[p]) ==>
          s.pcs[p].src == SrcOf(acts, p) && s.pcs[p].i == PutBy(acts, p) && s.pcs[p].i <= |s.pcs[p].src|)
    && (Reading(s.pcs[p]) ==> s.pcs[p].n == Wanted(acts, p))
    && (s.pcs[p].R? ==>
          |s.pcs[p].got| <= s.pcs[p].n && |s.pcs[p].got| <= |s.taken|
          && s.pcs[p].got == s.taken[|s.taken| - |s.pcs[p].got|..])
  }

  ghost predicate CallsOk(s: State, acts: seq<Action>) {
    && (forall p :: 0 <= p < |s.pcs| ==> CallOk(s, acts, p))
    && s.stored == Sent(acts)
    && (s.writeopen <==> !Closed(acts, true)) && (s.readopen <==> !Closed(acts, false))
  }

  lemma {:induction false} CallsMatch(s: State, acts: seq<Action>)
    requires Reachable(s, acts)
    ensures CallsOk(s, acts)
    decreases |acts|
  {
    hide Enabled, Next, CallsOk;
    if acts == [] {
      assert CallsOk(s, acts) by { StartOk(s); }
    } else {
      var n := |acts| - 1;
      var r :| Reachable(r, acts[..n]) && Enabled(r, acts[n]) && s == Next(r, acts[n]);
      CallsMatch(r, acts[..n]);
      ReachableInv(r, acts[..n]);
      CallStep(r, acts[..n], acts[n]);
      assert acts == acts[..n] + [acts[n]];
    }
  }

  lemma StartOk(s: State)
    requires Init(s)
    ensures CallsOk(s, [])
  {
  }

  lemma CallStep(s: State, acts: seq<Action>, a: Action)
    requires CallsOk(s, acts) && Enabled(s, a) && Inv(s)
    ensures CallsOk(Next(s, a), acts + [a])
  {
    hide Fifo, WakeReaders, WakeWriters, Full, CallOk, SrcOf, PutBy, ProcOk, Wanted;
    var s', more := Next(s, a), acts + [a];
    assert more[..|acts|] == acts;
    forall p | 0 <= p < |s'.pcs| ensures CallOk(s', more, p) {
      CallOne(s, acts, a, p);
    }
    if a.WByte? {
      assert CallOk(s, acts, a.p);
      NextByte(s, acts, a.p);
    }
  }

  lemma NextByte(s: State, acts: seq<Action>, p: nat)
    requires p < |s.pcs| && CallOk(s, acts, p) && s.pcs[p].W?
    ensures s.pcs[p].src == SrcOf(acts, p) && s.pcs[p].i == PutBy(acts, p)
  {
    hide SrcOf, PutBy, Wanted;
  }

  lemma CallOne(s: State, acts: seq<Action>, a: Action, p: nat)
    requires CallsOk(s, acts) && Enabled(s, a) && Inv(s) && p < |Next(s, a).pcs|
    ensures |Next(s, a).pcs| == |s.pcs| && CallOk(Next(s, a), acts + [a], p)
  {
    hide Fifo, Full, CallsOk, CallOk, ProcOk;
    OneOk(s, acts, p);
    assert ProcOk(s, p);
    if a.Close? || a.p != p {
      OthersCall(s, acts, a, p);
    } else {
      OwnCall(s, acts, a);
    }
  }

  lemma OwnCall(s: State, acts: seq<Action>, a: Action)
    requires Enabled(s, a) && !a.Close? && CallOk(s, acts, a.p)
    ensures |Next(s, a).pcs| == |s.pcs| && CallOk(Next(s, a), acts + [a], a.p)
  {
    hide Full;
    assert (acts + [a])[..|acts|] == acts;
  }

  lemma OthersCall(s: State, acts: seq<Action>, a: Action, p: nat)
    requires Enabled(s, a) && Inv(s) && p < |s.pcs| && (a.Close? || a.p != p) && CallOk(s, acts, p)
    ensures |Next(s, a).pcs| == |s.pcs| && CallOk(Next(s, a), acts + [a], p)
  {
    hide Fifo, Full;
    assert (acts + [a])[..|acts|] == acts;
    assert ProcOk(s, p);
    if !a.Close? {
      assert ProcOk(s, a.p);
    }
  }

  lemma OneOk(s: State, acts: seq<Action>, p: nat)
    requires CallsOk(s, acts) && p < |s.pcs|
    ensures CallOk(s, acts, p)
  {
    hide CallOk, Sent;
  }

  // ---- Results ----

  /** The bytes that come out of a pipe, followed by those in it, are the bytes its writers
      passed, each writer's in order. */
  lemma PipeDelivers(s: State, acts: seq<Action>)
    requires Reachable(s, acts)
    ensures |s.data| == PIPESIZE && s.taken + Ring(s) == Sent(acts)
  {
    hide Reachable;
    CallsMatch(s, acts);
    FirstInFirstOut(s, acts);
  }

  /** pipewrite ends its loop with everything stored exactly when it has stored all it was
      given; it gives up only with the read end closed. */
  lemma WriteEnds(s: State, acts: seq<Action>, p: nat)
    requires Reachable(s, acts) && p < |s.pcs| && s.pcs[p].W?
    ensures Enabled(s, WDone(p)) <==> PutBy(acts, p) == |SrcOf(acts, p)|
    ensures Enabled(s, WClosed(p)) <==> PutBy(acts, p) < |SrcOf(acts, p)| && Closed(acts, false)
  {
    hide Reachable, Full;
    CallsMatch(s, acts);
    ReachableInv(s, acts);
    assert CallOk(s, acts, p);
  }

  /** piperead returns the last bytes taken out of the pipe, at most as many as it asked
      for, and fewer only because the pipe is empty. */
  lemma ReadEnds(s: State, acts: seq<Action>, p: nat)
    requires Reachable(s, acts) && Enabled(s, RDone(p))
    ensures var got := s.pcs[p].got;
            && |got| <= Wanted(acts, p) && (|got| == Wanted(acts, p) || Count(s) == 0)
            && |got| <= |s.taken| && got == s.taken[|s.taken| - |got|..]
  {
    hide Reachable, Full;
    CallsMatch(s, acts);
    ReachableInv(s, acts);
    assert CallOk(s, acts, p);
  }

  // ---- Pipes do carry bytes ----

  ghost predicate Leads(s: State, s': State) {
    exists acts :: Run(s, acts, s')
  }

  ghost predicate Run(s: State, acts: seq<Action>, s': State)
    decreases |acts|
  {
    if acts == [] then s == s' else Enabled(s, acts[0]) && Run(Next(s, acts[0]), acts[1..], s')
  }

  lemma {:induction false} RunOn(s: State, acts: seq<Action>, s1: State, a: Action)
    requires Run(s, acts, s1) && Enabled(s1, a)
    ensures Run(s, acts + [a], Next(s1, a))
    decreases |acts|
  {
    hide Enabled, Next;
    if acts == [] {
      assert acts + [a] == [a] && [a][1..] == [];
    } else {
      RunOn(Next(s, acts[0]), acts[1..], s1, a);
      assert (acts + [a])[1..] == acts[1..] + [a];
    }
  }

  lemma LeadsOn(s: State, s1: State, a: Action)
    requires Leads(s, s1) && Enabled(s1, a)
    ensures Leads(s, Next(s1, a))
  {
    hide Enabled, Next, Run;
    var acts :| Run(s, acts, s1);
    RunOn(s, acts, s1, a);
  }

  /** A writer in its loop can store the rest of its bytes if they fit. */
  lemma {:induction false} WriteRest(s0: State, s: State, p: nat, src: seq<Byte>, i: nat) returns (s': State)
    requires Leads(s0, s) && Fifo(s) && p < |s.pcs| && s.pcs[p] == W(src, i) && i <= |src| && s.readopen
    requires Count(s) + |src| - i <= PIPESIZE
    ensures Leads(s0, s') && s'.pcs == s.pcs[p := W(src, |src|)] && s'.stored == s.stored + src[i..]
    ensures Fifo(s') && s'.readopen && s'.lock == s.lock && s'.taken == s.taken
    decreases |src| - i
  {
    hide Leads, Fifo, Count, Full;
    if i == |src| {
      s' := s;
    } else {
      assert Enabled(s, WByte(p)) && Fifo(Next(s, WByte(p))) && Count(Next(s, WByte(p))) == Count(s) + 1
        by { RoomForOne(s, p); }
      LeadsOn(s0, s, WByte(p));
      s' := WriteRest(s0, Next(s, WByte(p)), p, src, i + 1);
      assert src[i..] == [src[i]] + src[i + 1..];
    }
  }

  lemma RoomForOne(s: State, p: nat)
    requires Fifo(s) && p < |s.pcs| && s.pcs[p].W? && s.pcs[p].i < |s.pcs[p].src| && s.readopen && Count(s) < PIPESIZE
    ensures Enabled(s, WByte(p)) && Fifo(Next(s, WByte(p))) && Count(Next(s, WByte(p))) == Count(s) + 1
  {
    hide WakeReaders, WakeWriters, InRing;
    CountFacts(s);
    CountUp(s, Next(s, WByte(p)));
    FifoWrite(s, p);
  }

  /** A reader in its loop can take all it asks for if it is there. */
  lemma OneThenRest(d: seq<Byte>, k: nat, m: nat, got: seq<Byte>)
    requires k < m <= |d|
    ensures got + d[k..m] == got + [d[k]] + d[k + 1..m]
  {
    assert d[k..m] == [d[k]] + d[k + 1..m];
  }

  lemma {:induction false} ReadRest(s0: State, s: State, p: nat, n: nat, got: seq<Byte>) returns (s': State)
    requires Leads(s0, s) && Fifo(s) && p < |s.pcs| && s.pcs[p] == R(n, got) && |got| <= n && n - |got| <= Count(s)
    ensures Leads(s0, s') && |s.taken| + n - |got| <= |s.stored|
    ensures s'.pcs == s.pcs[p := R(n, got + s.stored[|s.taken|..|s.taken| + n - |got|])] && s'.stored == s.stored
    ensures Fifo(s')
    decreases n - |got|
  {
    hide Leads, Fifo, Count, Full;
    FifoSizes(s);
    if |got| == n {
      s' := s;
      assert got + s.stored[|s.taken|..|s.taken|] == got;
    } else {
      SomeToRead(s, p);
      var s1, k, b := Next(s, RByte(p)), |s.taken|, s.stored[|s.taken|];
      LeadsOn(s0, s, RByte(p));
      s' := ReadRest(s0, s1, p, n, got + [b]);
      var rest := s.stored[k + 1..k + n - |got|];
      assert s1.stored[|s1.taken|..|s1.taken| + n - |got + [b]|] == rest;
      OneThenRest(s.stored, k, k + n - |got|, got);
      assert s.pcs[p := R(n, got + [b])][p := R(n, got + [b] + rest)] == s.pcs[p := R(n, got + [b] + rest)];
    }
  }

  lemma FifoSizes(s: State)
    requires Fifo(s)
    ensures |s.stored| == |s.taken| + Count(s) && |s.data| == PIPESIZE
  {
  }

  lemma SomeToRead(s: State, p: nat)
    requires Fifo(s) && p < |s.pcs| && s.pcs[p].R? && |s.pcs[p].got| < s.pcs[p].n && Count(s) > 0
    ensures Enabled(s, RByte(p)) && Fifo(Next(s, RByte(p))) && Count(Next(s, RByte(p))) == Count(s) - 1
    ensures |s.taken| < |s.stored|
    ensures Next(s, RByte(p)).pcs == s.pcs[p := R(s.pcs[p].n, s.pcs[p].got + [s.stored[|s.taken|]])]
    ensures |Next(s, RByte(p)).taken| == |s.taken| + 1 && Next(s, RByte(p)).stored == s.stored
  {
    hide WakeReaders, WakeWriters;
    CountFacts(s);
    CountDown(s, Next(s, RByte(p)));
    FifoRead(s, p);
    assert InRing(s, 0) == s.stored[|s.taken|];
  }

  /** A message that fits is written whole to an empty pipe, and the writer returns. */
  lemma WriteWhole(s: State, src: seq<Byte>) returns (s': State)
    requires Init(s) && |s.pcs| >= 2 && |src| <= PIPESIZE
    ensures Leads(s, s') && Fifo(s') && s'.stored == src && s'.taken == [] && s'.lock == Unlocked
    ensures |s'.pcs| == |s.pcs| && s'.pcs[0] == s'.pcs[1] == Idle
  {
    hide Leads, Fifo, Count, Full, Run;
    LeadsSelf(s);
    StartFifo(s);
    LeadsOn(s, s, WStart(0, src));
    var s1 := Next(s, WStart(0, src));
    SameFifo(s, s1);
    var s2 := WriteRest(s, s1, 0, src, 0);
    FifoSizes(s2);
    LeadsOn(s, s2, WDone(0));
    s' := Next(s2, WDone(0));
    SameFifo(s2, s');
  }

  /** ... and goes through whole: after one write and one read of it, the reader has
      exactly what the writer passed. */
  lemma Carries(s: State, src: seq<Byte>) returns (s': State)
    requires Init(s) && |s.pcs| >= 2 && 0 < |src| <= PIPESIZE
    ensures Leads(s, s') && |s'.pcs| == |s.pcs| && Enabled(s', RDone(1)) && s'.pcs[1] == R(|src|, src)
  {
    hide Leads, Fifo, Count, Full, Run;
    var s1 := WriteWhole(s, src);
    FifoSizes(s1);
    LeadsOn(s, s1, RStart(1, |src|));
    var s2 := Next(s1, RStart(1, |src|));
    SameFifo(s1, s2);
    NotEmpty(s2);
    LeadsOn(s, s2, RGo(1));
    var s3 := Next(s2, RGo(1));
    SameFifo(s2, s3);
    s' := ReadRest(s, s3, 1, |src|, []);
    assert s3.stored[0..|src|] == src;
    FifoSizes(s');
  }

  lemma LeadsSelf(s: State)
    ensures Leads(s, s)
  {
    assert Run(s, [], s);
  }

  lemma StartFifo(s: State)
    requires Init(s)
    ensures Fifo(s) && Count(s) == 0
  {
  }

  lemma SameFifo(s: State, s': State)
    requires Fifo(s) && s'.data == s.data && s'.nread == s.nread && s'.nwrite == s.nwrite && s'.stored == s.stored
    requires s'.taken == s.taken
    ensures Fifo(s') && Count(s') == Count(s)
  {
    FifoSame(s, s');
  }

  lemma NotEmpty(s: State)
    requires Fifo(s) && Count(s) > 0
    ensures s.nread != s.nwrite
  {
    hide InRing;
    CountFacts(s);
  }

  // ---- No deadlock ----

  /** The caller that has the lock can go on, and with the lock free a woken one can: a
      call that is not asleep never stops the pipe. */
  lemma NoDeadlock(s: State, acts: seq<Action>, p: nat)
    requires Reachable(s, acts) && p < |s.pcs| && s.pcs[p] != Idle && !s.pcs[p].WSleep? && !s.pcs[p].RSleep?
    ensures s.lock == Unlocked ==> Enabled(s, if s.pcs[p].WWoken? then WWake(p) else RWake(p))
    ensures s.lock.Held? ==> exists a :: Enabled(s, a) && !a.Close? && a.p == s.lock.p
  {
    hide Reachable, Fifo;
    ReachableInv(s, acts);
    assert ProcOk(s, p);
    Sized(s);
    if s.lock.Held? {
      var q := s.lock.p;
      assert ProcOk(s, q);
      var pc := s.pcs[q];
      var a := if pc.W? then
                 if pc.i >= |pc.src| then WDone(q) else if !s.readopen then WClosed(q)
                 else if Full(s) then WFull(q) else WByte(q)
               else if pc.R0? then if s.nread == s.nwrite && s.writeopen then RWait(q) else RGo(q)
               else if |pc.got| < pc.n && s.nread != s.nwrite then RByte(q) else RDone(q);
      assert Enabled(s, a);
    }
  }

  lemma Sized(s: State)
    requires Fifo(s)
    ensures |s.data| == PIPESIZE
  {
  }
}
