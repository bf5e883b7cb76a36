/** Pipes (kernel/pipe.c:58-130): every interleaving of writers, readers and closes, one
    step per turn of a loop or passing of the lock; user copies succeed and nobody is
    killed. */
module Pipe {
  import opened Common

  const PIPESIZE := 512

  datatype Owner = Unlocked | Held(p: nat)

  datatype PC =
    | Idle
    | W(src: seq<Byte>, i: nat)        // lock: pipewrite's loop
    | WSleep(src: seq<Byte>, i: nat)   // asleep on nwrite
    | WWoken(src: seq<Byte>, i: nat)
    | R0(n: nat)                       // lock: piperead's first loop
    | RSleep(n: nat)                   // asleep on nread
    | RWoken(n: nat)
    | R(n: nat, got: seq<Byte>)        // lock: piperead's copy loop

  /** `stored` and `taken` are all bytes ever put into and taken out of the ring. */
  datatype State = State(data: seq<Byte>, nread: nat, nwrite: nat, readopen: bool, writeopen: bool,
                         lock: Owner, pcs: seq<PC>, stored: seq<Byte>, taken: seq<Byte>)

  datatype Action =
    | WStart(p: nat, src: seq<Byte>)
    | WByte(p: nat)
    | WFull(p: nat)
    | WClosed(p: nat)
    | WDone(p: nat)
    | WWake(p: nat)
    | RStart(p: nat, n: nat)
    | RWait(p: nat)
    | RWake(p: nat)
    | RGo(p: nat)
    | RByte(p: nat)
    | RDone(p: nat)
    | Close(writable: bool)

  predicate Full(s: State) {
    s.nwrite == (s.nread + PIPESIZE) % UINT32
  }

  predicate Enabled(s: State, a: Action) {
    && |s.data| == PIPESIZE && (!a.Close? ==> a.p < |s.pcs|)
    && match a
       case WStart(p, _) => s.pcs[p] == Idle && s.lock == Unlocked
       case WByte(p) => s.pcs[p].W? && s.pcs[p].i < |s.pcs[p].src| && s.readopen && !Full(s)
       case WFull(p) => s.pcs[p].W? && s.pcs[p].i < |s.pcs[p].src| && s.readopen && Full(s)
       case WClosed(p) => s.pcs[p].W? && s.pcs[p].i < |s.pcs[p].src| && !s.readopen
       case WDone(p) => s.pcs[p].W? && s.pcs[p].i >= |s.pcs[p].src|
       case WWake(p) => s.pcs[p].WWoken? && s.lock == Unlocked
       case RStart(p, _) => s.pcs[p] == Idle && s.lock == Unlocked
       case RWait(p) => s.pcs[p].R0? && s.nread == s.nwrite && s.writeopen
       case RWake(p) => s.pcs[p].RWoken? && s.lock == Unlocked
       case RGo(p) => s.pcs[p].R0? && !(s.nread == s.nwrite && s.writeopen)
       case RByte(p) => s.pcs[p].R? && |s.pcs[p].got| < s.pcs[p].n && s.nread != s.nwrite
       case RDone(p) => s.pcs[p].R? && (|s.pcs[p].got| >= s.pcs[p].n || s.nread == s.nwrite)
       case Close(_) => s.lock == Unlocked
  }

  /** wakeup(&pi->nread), or wakeup(&pi->nwrite). */
  function WakeReaders(pcs: seq<PC>): (r: seq<PC>)
    ensures |r| == |pcs| && forall p :: 0 <= p < |r| ==> r[p] == if pcs[p].RSleep? then RWoken(pcs[p].n) else pcs[p]
  {
    seq(|pcs|, p requires 0 <= p < |pcs| => if pcs[p].RSleep? then RWoken(pcs[p].n) else pcs[p])
  }

  function WakeWriters(pcs: seq<PC>): (r: seq<PC>)
    ensures |r| == |pcs|
    ensures forall p :: 0 <= p < |r| ==> r[p] == if pcs[p].WSleep? then WWoken(pcs[p].src, pcs[p].i) else pcs[p]
  {
    seq(|pcs|, p requires 0 <= p < |pcs| => if pcs[p].WSleep? then WWoken(pcs[p].src, pcs[p].i) else pcs[p])
  }

  function Next(s: State, a: Action): State
    requires Enabled(s, a)
  {
    match a
    case WStart(p, src) => s.(lock := Held(p), pcs := s.pcs[p := W(src, 0)])
    case WByte(p) =>
      var b := s.pcs[p].src[s.pcs[p].i];
      s.(data := s.data[s.nwrite % PIPESIZE := b], nwrite := (s.nwrite + 1) % UINT32, pcs :=
        s.pcs[p := W(s.pcs[p].src, s.pcs[p].i + 1)],
         stored := s.stored + [b])
    case WFull(p) => s.(lock := Unlocked, pcs := WakeReaders(s.pcs)[p := WSleep(s.pcs[p].src, s.pcs[p].i)])
    case WClosed(p) => s.(lock := Unlocked, pcs := s.pcs[p := Idle])
    case WDone(p) => s.(lock := Unlocked, pcs := WakeReaders(s.pcs)[p := Idle])
    case WWake(p) => s.(lock := Held(p), pcs := s.pcs[p := W(s.pcs[p].src, s.pcs[p].i)])
    case RStart(p, n) => s.(lock := Held(p), pcs := s.pcs[p := R0(n)])
    case RWait(p) => s.(lock := Unlocked, pcs := s.pcs[p := RSleep(s.pcs[p].n)])
    case RWake(p) => s.(lock := Held(p), pcs := s.pcs[p := R0(s.pcs[p].n)])
    case RGo(p) => s.(pcs := s.pcs[p := R(s.pcs[p].n, [])])
    case RByte(p) =>
      var b := s.data[s.nread % PIPESIZE];
      s.(nread := (s.nread + 1) % UINT32, pcs := s.pcs[p := R(s.pcs[p].n, s.pcs[p].got + [b])], taken := s.taken + [b])
    case RDone(p) => s.(lock := Unlocked, pcs := WakeWriters(s.pcs)[p := Idle])
    case Close(writable) =>
      if writable then s.(writeopen := false, pcs := WakeReaders(s.pcs))
        else s.(readopen := false, pcs := WakeWriters(s.pcs))
  }

  predicate Init(s: State) {
    && |s.data| == PIPESIZE && s.nread == 0 && s.nwrite == 0 && s.readopen && s.writeopen && s.lock == Unlocked
    && (forall p :: 0 <= p < |s.pcs| ==> s.pcs[p] == Idle) && s.stored == [] && s.taken == []
  }

  ghost predicate Reachable(s: State, acts: seq<Action>)
    decreases |acts|
  {
    if acts == [] then Init(s)
    else
      var m := |acts| - 1;
      exists r :: Reachable(r, acts[..m]) && Enabled(r, acts[m]) && s == Next(r, acts[m])
  }

  // ---- The ring ----

  /** Bytes in the ring, across the wrap of both counters. */
  function Count(s: State): nat {
    (s.nwrite - s.nread) % UINT32
  }

  ghost predicate Fifo(s: State) {
    && |s.data| == PIPESIZE && s.nread < UINT32 && s.nwrite < UINT32 && Count(s) <= PIPESIZE
    && |s.stored| == |s.taken| + Count(s) && s.taken == s.stored[..|s.taken|]
    && forall k :: 0 <= k < Count(s) ==> InRing(s, k) == s.stored[|s.taken| + k]
  }

  function InRing(s: State, k: nat): Byte
    requires |s.data| == PIPESIZE
  {
    s.data[(s.nread + k) % PIPESIZE]
  }

  lemma CountFacts(s: State)
    requires s.nread < UINT32 && s.nwrite < UINT32
    ensures s.nwrite == (s.nread + Count(s)) % UINT32 && (Count(s) == 0 <==> s.nread == s.nwrite)
    ensures Count(s) <= PIPESIZE ==> (Full(s) <==> Count(s) == PIPESIZE)
    ensures s.nwrite % PIPESIZE == (s.nread + Count(s)) % PIPESIZE
  {
    var c := Count(s);
    if s.nwrite >= s.nread {
      assert c == s.nwrite - s.nread;
    } else {
      assert c == s.nwrite - s.nread + UINT32;
      assert s.nread + c == s.nwrite + UINT32;
    }
  }

  lemma SlotsDiffer(a: nat, i: nat, j: nat)
    requires i < j < i + PIPESIZE
    ensures (a + i) % PIPESIZE != (a + j) % PIPESIZE
  {
  }

  lemma CountUp(s: State, s': State)
    requires s.nread < UINT32 && s.nwrite < UINT32 && Count(s) < PIPESIZE && s'.nread == s.nread
    requires s'.nwrite == (s.nwrite + 1) % UINT32
    ensures Count(s') == Count(s) + 1
  {
  }

  lemma CountDown(s: State, s': State)
    requires s.nread < UINT32 && s.nwrite < UINT32 && 0 < Count(s) && s'.nwrite == s.nwrite
    requires s'.nread == (s.nread + 1) % UINT32
    ensures Count(s') == Count(s) - 1
  {
  }

  lemma FifoWrite(s: State, p: nat)
    requires Fifo(s) && Enabled(s, WByte(p))
    ensures Fifo(Next(s, WByte(p)))
  {
    hide Count, Full, WakeReaders, WakeWriters;
    var s' := Next(s, WByte(p));
    CountFacts(s);
    CountUp(s, s');
    forall k | 0 <= k < Count(s') ensures InRing(s', k) == s'.stored[|s'.taken| + k] {
      if k < Count(s) {
        SlotsDiffer(s.nread, k, Count(s));
        assert InRing(s, k) == s.stored[|s.taken| + k];
      }
    }
  }

  lemma FifoRead(s: State, p: nat)
    requires Fifo(s) && Enabled(s, RByte(p))
    ensures Fifo(Next(s, RByte(p)))
  {
    hide Count, Full, WakeReaders, WakeWriters;
    var s' := Next(s, RByte(p));
    CountFacts(s);
    CountDown(s, s');
    assert InRing(s, 0) == s.stored[|s.taken|];
    assert s.stored[..|s.taken| + 1] == s.stored[..|s.taken|] + [s.stored[|s.taken|]];
    forall k | 0 <= k < Count(s') ensures InRing(s', k) == s'.stored[|s'.taken| + k] {
      assert InRing(s, k + 1) == s.stored[|s.taken| + (k + 1)];
      NextSlot(s.nread, k);
    }
  }

  lemma NextSlot(a: nat, k: nat)
    requires a < UINT32
    ensures ((a + 1) % UINT32 + k) % PIPESIZE == (a + (k + 1)) % PIPESIZE
  {
    if a + 1 == UINT32 {
      assert (a + (k + 1)) == UINT32 + k;
    }
  }

  lemma FifoSame(s: State, s': State)
    requires Fifo(s) && s'.data == s.data && s'.nread == s.nread && s'.nwrite == s.nwrite && s'.stored == s.stored
    requires s'.taken == s.taken
    ensures Fifo(s')
  {
    forall k | 0 <= k < Count(s') ensures InRing(s', k) == s'.stored[|s'.taken| + k] {
      assert InRing(s, k) == s.stored[|s.taken| + k];
    }
  }

  // ---- Sleepers ----

  predicate HasLock(pc: PC) {
    pc.W? || pc.R0? || pc.R?
  }

  /** A sleeping reader has nothing to read, or a writer will wake it before the lock is
      free again; and likewise for a sleeping writer. */
  ghost predicate ProcOk(s: State, p: nat)
    requires p < |s.pcs|
  {
    && (s.lock == Held(p) <==> HasLock(s.pcs[p]))
    && (s.pcs[p].RSleep? ==>
          (s.nread == s.nwrite && s.writeopen)
            || (s.readopen && s.lock.Held? && s.lock.p < |s.pcs| && s.pcs[s.lock.p].W?))
    && (s.pcs[p].WSleep? ==> (Full(s) && s.readopen) || (s.lock.Held? && s.lock.p < |s.pcs| && s.pcs[s.lock.p].R?))
    && (s.pcs[p].R? && s.pcs[p].got == [] ==> s.nread != s.nwrite || !s.writeopen)
  }

  ghost predicate Inv(s: State) {
    Fifo(s) && (s.lock.Held? ==> s.lock.p < |s.pcs|) && forall p :: 0 <= p < |s.pcs| ==> ProcOk(s, p)
  }

  lemma StepProcs(s: State, a: Action)
    requires Inv(s) && Enabled(s, a)
    ensures var s' := Next(s, a); (s'.lock.Held? ==> s'.lock.p < |s'.pcs|) && forall p :: 0 <= p < |s'.pcs| ==>
            ProcOk(s', p)
  {
    hide Fifo, WakeReaders, WakeWriters;
    var s' := Next(s, a);
    if !a.Close? {
      assert ProcOk(s, a.p);
    }
    forall p | 0 <= p < |s'.pcs| ensures ProcOk(s', p) {
      assert ProcOk(s, p);
    }
  }

  lemma StepInv(s: State, a: Action)
    requires Inv(s) && Enabled(s, a)
    ensures Inv(Next(s, a))
  {
    hide Fifo, ProcOk, WakeReaders, WakeWriters;
    StepProcs(s, a);
    match a
    case WByte(p) => FifoWrite(s, p);
    case RByte(p) => FifoRead(s, p);
    case _ => FifoSame(s, Next(s, a));
  }

  lemma {:induction false} ReachableInv(s: State, acts: seq<Action>)
    requires Reachable(s, acts)
    ensures Inv(s)
    decreases |acts|
  {
    if acts == [] {
      assert Count(s) == 0;
    } else {
      hide Inv, Next, Enabled;
      var m := |acts| - 1;
      var r :| Reachable(r, acts[..m]) && Enabled(r, acts[m]) && s == Next(r, acts[m]);
      ReachableInv(r, acts[..m]);
      StepInv(r, acts[m]);
    }
  }

  // ---- Results ----

  /** The ring as a sequence, oldest byte first. */
  function Ring(s: State): seq<Byte>
    requires |s.data| == PIPESIZE
  {
    seq(Count(s), k requires 0 <= k => InRing(s, k))
  }

  /** First in, first out: what has been read, followed by what is in the ring, is what
      was written, and the ring never holds more than PIPESIZE bytes. */
  lemma FirstInFirstOut(s: State, acts: seq<Action>)
    requires Reachable(s, acts)
    ensures |s.data| == PIPESIZE && Count(s) <= PIPESIZE && s.taken + Ring(s) == s.stored
  {
    hide ProcOk, Reachable, Count;
    ReachableInv(s, acts);
    var t := s.taken + Ring(s);
    forall i | 0 <= i < |t| ensures t[i] == s.stored[i] {
      if i >= |s.taken| {
        assert InRing(s, i - |s.taken|) == s.stored[|s.taken| + (i - |s.taken|)];
      }
    }
  }

  /** piperead returns 0 for n > 0 only when the pipe is empty and the write end closed. */
  lemma ZeroMeansEnd(s: State, acts: seq<Action>, p: nat)
    requires Reachable(s, acts) && Enabled(s, RDone(p)) && s.pcs[p].got == [] && s.pcs[p].n > 0
    ensures s.nread == s.nwrite && !s.writeopen
  {
    ReachableInv(s, acts);
    assert ProcOk(s, p);
  }

  /** No wakeup is lost: with the lock free, a sleeping reader faces an empty pipe with
      its write end open, and a sleeping writer a full one with its read end open. */
  lemma SleepersWait(s: State, acts: seq<Action>, p: nat)
    requires Reachable(s, acts) && s.lock == Unlocked && p < |s.pcs|
    ensures s.pcs[p].RSleep? ==> Count(s) == 0 && s.writeopen
    ensures s.pcs[p].WSleep? ==> Count(s) == PIPESIZE && s.readopen
  {
    ReachableInv(s, acts);
    assert ProcOk(s, p);
    CountFacts(s);
  }
}
