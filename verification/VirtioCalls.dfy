/** Calls of virtio_disk_rw from start to end (kernel/virtio_disk.c:203-315): every call
    stays with its request until the device has served it, the handler leaves nothing
    behind, and a call that meets no other goes through. */
module VirtioCalls {
  import opened Common
  import opened Virtio
  import opened VirtioMachine
  import opened VirtioInv

  // ---- Calls ----

  /** The request of p's call that has not returned. */
  function Pending(acts: seq<Action>, p: nat): Option<Request> {
    if acts == [] then None
    else
      var m := |acts| - 1;
      match acts[m]
      case Start(q, r) => if q == p then Some(r) else Pending(acts[..m], p)
      case Finish(q) => if q == p then None else Pending(acts[..m], p)
      case _ => Pending(acts[..m], p)
  }

  ghost predicate CallOk(s: State, acts: seq<Action>, p: nat)
    requires p < |s.pcs|
  {
    Pending(acts, p) == if s.pcs[p] == Idle then None else Some(s.pcs[p].r)
  }

  lemma CallStep(s: State, acts: seq<Action>, a: Action, p: nat)
    requires Shaped(s) && p < |s.pcs| && CallOk(s, acts, p) && Enabled(s, a)
    requires a.Publish? ==> s.pcs[a.p].h < NUM
    ensures |Next(s, a).pcs| == |s.pcs| && CallOk(Next(s, a), acts + [a], p)
  {
    hide Three, Formatted, FreeDesc, CanAlloc, RingPut, RingBump, RingTake, RingNext, Served;
    assert (acts + [a])[..|acts|] == acts;
  }

  /** A call is over exactly when it has finished: until then it is at work on the request
      it was called with. */
  lemma {:induction false} CallsKeepRequest(s: State, n: nat, acts: seq<Action>, p: nat)
    requires Reachable(s, n, acts) && p < n
    ensures |s.pcs| == n && CallOk(s, acts, p)
    decreases |acts|
  {
    hide Next, Enabled, Inv;
    if acts != [] {
      var m := |acts| - 1;
      var r :| Reachable(r, n, acts[..m]) && Enabled(r, acts[m]) && s == Next(r, acts[m]);
      CallsKeepRequest(r, n, acts[..m], p);
      ReachableInv(r, n, acts[..m]);
      PublishNamed(r, acts[m]);
      CallStep(r, acts[..m], acts[m], p);
      assert acts == acts[..m] + [acts[m]];
    }
  }

  lemma PublishNamed(s: State, a: Action)
    requires Inv(s) && Enabled(s, a)
    ensures Shaped(s) && (a.Publish? ==> s.pcs[a.p].h < NUM)
  {
    hide RingOk, ChainOk, SlotOk, HeadOk;
    if a.Publish? {
      assert ProcOk(s, a.p);
    }
  }

  /** When the handler ends, no answer that the device has published is left. */
  lemma HandlerLeavesNone(s: State, n: nat, acts: seq<Action>, h: nat)
    requires Reachable(s, n, acts) && Enabled(s, IntrEnd) && h < NUM
    ensures s.phase[h] != Used && Next(s, IntrEnd).lock == Unlocked
  {
    hide Reachable, ChainOk;
    ReachableInv(s, n, acts);
    assert s.used.unread == [];
  }

  /** Under the lock, a caller sleeps exactly when its request is not acknowledged, and
      returns exactly when it is. */
  lemma WaitsForAnswer(s: State, n: nat, acts: seq<Action>, p: nat)
    requires Reachable(s, n, acts) && p < |s.pcs| && s.pcs[p].Wait?
    ensures Shaped(s) && s.pcs[p].h < NUM
    ensures Enabled(s, Sleep(p)) <==> s.phase[s.pcs[p].h] != Acked
    ensures Enabled(s, Finish(p)) <==> s.phase[s.pcs[p].h] == Acked
  {
    hide Reachable, RingOk;
    ReachableInv(s, n, acts);
    assert ProcOk(s, p) && HeadOk(s, s.pcs[p].h);
  }

  ghost predicate ThreeLeft(d: Descs) {
    exists i, j, k :: 0 <= i < j < k < |d.free| && d.free[i] && d.free[j] && d.free[k]
  }

  /** A call goes to sleep for descriptors exactly when there are not three. */
  lemma AllocIffThree(d: Descs)
    ensures CanAlloc(d) <==> ThreeLeft(d)
  {
    var (i, j, k) := Three(d.free);
    if CanAlloc(d) {
      assert 0 <= i < j < k < |d.free| && d.free[i] && d.free[j] && d.free[k];
    }
  }

  lemma StarvedOnly(s: State, p: nat)
    requires Shaped(s) && p < |s.pcs| && s.pcs[p].Try?
    ensures Enabled(s, AllocFail(p)) <==> !ThreeLeft(s.d)
    ensures Enabled(s, AllocOk(p)) <==> ThreeLeft(s.d)
  {
    hide CanAlloc, ThreeLeft;
    AllocIffThree(s.d);
  }

  /** What can happen next if p is in virtio_disk_rw and the lock is where it is. */
  function NextFor(s: State, p: nat): Action
    requires Shaped(s) && p < |s.pcs| && s.pcs[p] != Idle && (s.lock.Held? ==> s.lock.p < |s.pcs|)
  {
    if s.lock == Intr then if s.used.seen == s.used.idx then IntrEnd else IntrOne
    else
      var q := if s.lock.Held? then s.lock.p else p;
      match s.pcs[q]
      case Idle => IntrStart
      case Try(_) => if CanAlloc(s.d) then AllocOk(q) else AllocFail(q)
      case Starved(_) => Retry(q)
      case Put(_, _, _) => PutHead(q)
      case Pub(_, _, _) => Publish(q)
      case Wait(r, _, _) => if r.b in s.busy then Sleep(q) else Finish(q)
      case Asleep(_, _, _) => Wake(q)
  }

  /** The driver never deadlocks: while a call is in progress, the holder of the lock can
      go on or, with the lock free, so can the caller; only an error from the device stops
      the handler, with a panic. */
  lemma NoDeadlock(s: State, n: nat, acts: seq<Action>, p: nat)
    requires Reachable(s, n, acts) && p < |s.pcs| && s.pcs[p] != Idle
    ensures Shaped(s) && (s.lock.Held? ==> s.lock.p < |s.pcs|)
    ensures (Enabled(s, NextFor(s, p)) && !NextFor(s, p).IntrStart?)
            || (s.lock == Intr && s.used.seen != s.used.idx && RingNext(s.used) < NUM
                && s.info[RingNext(s.used)].status != 0)
  {
    hide Reachable, RingOk, ChainOk, CanAlloc, SlotOk, RingNext;
    ReachableInv(s, n, acts);
    assert ProcOk(s, p);
    if s.lock == Intr {
      if s.used.seen != s.used.idx {
        InterruptSafe(s, n, acts);
      }
    } else {
      var q := if s.lock.Held? then s.lock.p else p;
      assert ProcOk(s, q);
      if s.pcs[q].Wait? {
        WaitsForAnswer(s, n, acts, q);
      }
    }
  }

  // ---- The entry of a chain ----

  /** No buffer without a chain, and a status that is no answer until there is one. */
  ghost predicate InfoOk(s: State, h: nat)
    requires Shaped(s) && h < NUM
  {
    && (s.phase[h] == NoChain ==> s.info[h].b == None)
    && (s.phase[h] == Made || s.phase[h] == Avail || s.phase[h] == Taken ==> s.info[h].status == 0xff)
  }

  ghost predicate InfosOk(s: State) {
    Shaped(s) && forall h :: 0 <= h < NUM ==> InfoOk(s, h)
  }

  /** What is at the head of each ring, and at the head of p's chain. */
  lemma Heads(s: State, a: Action)
    requires Inv(s) && Enabled(s, a)
    ensures Shaped(s)
    ensures a.DevTake? ==> s.phase[RingNext(s.avail)] == Avail
    ensures a.IntrOne? ==> s.phase[RingNext(s.used)] == Used
    ensures a.DevBump? ==> s.phase[s.filing.value] == Filed
    ensures a.Publish? ==> s.pcs[a.p].h < NUM && s.phase[s.pcs[a.p].h] == Made
  {
    hide ChainOk, SlotOk;
    match a
    case DevTake =>
      TakeFirst(s.avail);
      assert s.avail.unread[0] in s.avail.unread;
    case IntrOne =>
      TakeFirst(s.used);
      assert s.used.unread[0] in s.used.unread;
    case DevBump =>
      assert s.filing == Some(s.filing.value);
    case Publish(p) =>
      assert ProcOk(s, p) && HeadOk(s, s.pcs[p].h);
    case _ =>
  }

  lemma InfosStep(s: State, a: Action)
    requires Inv(s) && InfosOk(s) && Enabled(s, a)
    ensures InfosOk(Next(s, a))
  {
    hide Inv, Formatted, FreeDesc, RingPut, RingBump, RingTake, RingNext, Served, CanAlloc, Three;
    Heads(s, a);
    if a.AllocOk? {
      AllocFrom(s, a.p);
    }
    StepInv(s, a);
    var s' := Next(s, a);
    HasShape(s');
    forall h | 0 <= h < NUM ensures InfoOk(s', h) {
      assert InfoOk(s, h);
    }
  }

  lemma HasShape(s: State)
    requires Inv(s)
    ensures Shaped(s)
  {
  }

  /** The status byte is the driver's 0xff until the device answers, so the handler never
      takes a request for served before it is; and no buffer is kept past its request. */
  lemma {:induction false} StatusUnanswered(s: State, n: nat, acts: seq<Action>)
    requires Reachable(s, n, acts)
    ensures InfosOk(s)
    decreases |acts|
  {
    hide Next, Enabled, Inv;
    if acts != [] {
      var m := |acts| - 1;
      var r :| Reachable(r, n, acts[..m]) && Enabled(r, acts[m]) && s == Next(r, acts[m]);
      StatusUnanswered(r, n, acts[..m]);
      ReachableInv(r, n, acts[..m]);
      InfosStep(r, acts[m]);
    }
  }

  // ---- One request from start to end ----

  ghost predicate Run(s: State, acts: seq<Action>, t: State)
    decreases |acts|
  {
    if acts == [] then s == t else Enabled(s, acts[0]) && Run(Next(s, acts[0]), acts[1..], t)
  }

  lemma {:induction false} RunOn(s: State, a: seq<Action>, t: State, b: seq<Action>, u: State)
    requires Run(s, a, t) && Run(t, b, u)
    ensures Run(s, a + b, u)
    decreases |a|
  {
    hide Enabled, Next;
    if a == [] {
      assert a + b == b;
    } else {
      RunOn(Next(s, a[0]), a[1..], t, b, u);
      assert (a + b)[1..] == a[1..] + b;
    }
  }

  lemma RunMore(s: State, acts: seq<Action>, t: State, a: Action, u: State)
    requires Run(s, acts, t) && Enabled(t, a) && u == Next(t, a)
    ensures Run(s, acts + [a], u)
  {
    hide Enabled, Next;
    assert [a][1..] == [] && Run(u, [], u);
    RunOn(s, acts, t, [a], u);
  }

  /** p can make request r at once, and nothing else is on its way through the rings. */
  ghost predicate Clear(s: State, p: nat, r: Request) {
    && Inv(s) && s.lock == Unlocked && p < |s.pcs| && s.pcs[p] == Idle && BufferFree(s, r.b) && CanAlloc(s.d)
    && s.avail.unread == [] && s.used.unread == [] && s.filing == None
  }

  /** s after p has set up its chain and gone to sleep. */
  function Submitted(s: State, p: nat, r: Request): State
    requires Shaped(s) && p < |s.pcs| && CanAlloc(s.d)
  {
    var (h, j, k) := Three(s.d.free);
    s.(d := Formatted(s.d, h, j, k, r), info := s.info[h := Info(Some(r.b), 0xff)],
       avail := RingBump(RingPut(s.avail, h), h), busy := s.busy + {r.b}, pcs := s.pcs[p := Asleep(r, h, |s.served|)],
       phase := s.phase[h := Avail], who := s.who[h := p])
  }

  lemma Submits(s: State, p: nat, r: Request)
    requires Clear(s, p, r)
    ensures Run(s, [Start(p, r), AllocOk(p), PutHead(p), Publish(p), Sleep(p)], Submitted(s, p, r))
  {
    hide RingOk, ChainOk, SlotOk, HeadOk, ProcOk, Formatted, Three, RingPut, RingBump, RingNext;
    ThreeFree(s.d);
    var (h, j, k) := Three(s.d.free);
    var n := |s.served|;
    assert Run(s, [], s);
    hide Run;
    var s1 := s.(lock := Held(p), pcs := s.pcs[p := Try(r)]);
    RunMore(s, [], s, Start(p, r), s1);
    var s2 := s1.(d := Formatted(s.d, h, j, k, r), info := s.info[h := Info(Some(r.b), 0xff)], busy := s.busy + {r.b},
                  pcs := s.pcs[p := Put(r, h, n)], phase := s.phase[h := Made], who := s.who[h := p]);
    AllocNext(s, s1, p, r, s2);
    RunMore(s, [] + [Start(p, r)], s1, AllocOk(p), s2);
    var s3 := s2.(avail := RingPut(s.avail, h), pcs := s.pcs[p := Pub(r, h, n)]);
    FormattedShape(s.d, h, j, k, r);
    PutShape(s.avail, h);
    RunMore(s, [] + [Start(p, r)] + [AllocOk(p)], s2, PutHead(p), s3);
    var s4 := s3.(avail := RingBump(s3.avail, h), pcs := s.pcs[p := Wait(r, h, n)], phase := s.phase[h := Avail]);
    RunMore(s, [] + [Start(p, r)] + [AllocOk(p)] + [PutHead(p)], s3, Publish(p), s4);
    RunMore(s, [] + [Start(p, r)] + [AllocOk(p)] + [PutHead(p)] + [Publish(p)], s4, Sleep(p), Submitted(s, p, r));
    assert [] + [Start(p, r)] + [AllocOk(p)] + [PutHead(p)] + [Publish(p)] + [Sleep(p)] ==
           [Start(p, r), AllocOk(p), PutHead(p), Publish(p), Sleep(p)];
  }

  lemma AllocNext(s: State, s1: State, p: nat, r: Request, s2: State)
    requires Clear(s, p, r) && s1 == s.(lock := Held(p), pcs := s.pcs[p := Try(r)])
    requires var (h, j, k) := Three(s.d.free);
             && h < NUM && j < NUM && k < NUM && s2 == s1.(
             d := Formatted(s.d, h, j, k, r), info := s.info[h := Info(Some(r.b), 0xff)], busy := s.busy + {r.b},
             pcs := s.pcs[p := Put(r, h, |s.served|)], phase := s.phase[h := Made], who := s.who[h := p])
    ensures Enabled(s1, AllocOk(p)) && Next(s1, AllocOk(p)) == s2
  {
    hide RingOk, ChainOk, SlotOk, HeadOk, ProcOk, Formatted, Three;
  }

  lemma FormattedShape(d: Descs, i: nat, j: nat, k: nat, r: Request)
    requires |d.free| == NUM && |d.desc| == NUM && |d.ops| == NUM && |d.owner| == NUM && i < NUM && j < NUM && k < NUM
    ensures var e := Formatted(d, i, j, k, r); |e.free| == NUM && |e.desc| == NUM && |e.ops| == NUM && |e.owner| == NUM
  {
  }

  lemma PutShape(r: Ring, h: nat)
    requires |r.ring| == NUM
    ensures |RingPut(r, h).ring| == NUM && |RingBump(RingPut(r, h), h).ring| == NUM
  {
  }

  /** A ring with nothing in it, after h went through. */
  function Through(r: Ring, h: nat): Ring
    requires |r.ring| == NUM
  {
    RingTake(RingBump(RingPut(r, h), h))
  }

  lemma OneThrough(r: Ring, h: nat)
    requires RingOk(r) && r.unread == []
    ensures var r' := RingBump(RingPut(r, h), h);
            && |RingPut(r, h).ring| == NUM && |r'.ring| == NUM && r'.seen != r'.idx && RingNext(r') == h
            && |Through(r, h).ring| == NUM && Through(r, h).unread == [] && Through(r, h).seen == Through(r, h).idx
  {
  }

  lemma ChainFor(s: State, p: nat, r: Request)
    requires Clear(s, p, r)
    ensures var (h, j, k) := Three(s.d.free);
            && h < NUM && j < NUM && k < NUM && s.phase[h] == NoChain
            && var d := Formatted(s.d, h, j, k, r);
               && |d.free| == NUM && |d.desc| == NUM && |d.ops| == NUM && |d.owner| == NUM
               && Served(d, h) == Some(r) && d.desc[h].next == j && d.desc[j].next == k
  {
    hide RingOk, Three, CanAlloc;
    ThreeFree(s.d);
    var (h, j, k) := Three(s.d.free);
    assert SlotOk(s, h);
    NotHead(s, h);
    var d := Formatted(s.d, h, j, k, r);
    hide ChainOk;
    FormattedNew(s.d, h, j, k, r);
    ServedIs(d, h, r);
  }

  /** s after the device has answered p's request with success. */
  function Answered(s: State, p: nat, r: Request): State
    requires Shaped(s) && p < |s.pcs| && CanAlloc(s.d)
  {
    var t, h := Submitted(s, p, r), Three(s.d.free).0;
    t.(avail := Through(s.avail, h), used := RingBump(RingPut(s.used, h), h), info := s.info[h := Info(Some(r.b), 0)],
       phase := s.phase[h := Used], served := s.served + [Answer(r, 0)])
  }

  lemma FileNext(s: State, p: nat, r: Request, t1: State, t2: State)
    requires Clear(s, p, r)
    requires var h := Three(s.d.free).0;
             && h < NUM && t1 == Submitted(s, p, r).(avail := Through(s.avail, h), phase := s.phase[h := Taken])
             && t2 == t1.(used := RingPut(s.used, h), filing := Some(h), phase := s.phase[h := Filed],
                          info := s.info[h := Info(Some(r.b), 0)], served := s.served + [Answer(r, 0)])
    ensures var h := Three(s.d.free).0; Enabled(t1, DevFile(h, 0)) && Next(t1, DevFile(h, 0)) == t2
  {
    ChainFor(s, p, r);
    hide RingOk, ChainOk, SlotOk, HeadOk, ProcOk, Formatted, Three, RingPut, RingBump, RingTake, RingNext, Served;
    OneThrough(s.avail, Three(s.d.free).0);
    OneThrough(s.used, Three(s.d.free).0);
  }

  lemma Answers(s: State, p: nat, r: Request)
    requires Clear(s, p, r)
    ensures Run(Submitted(s, p, r), [DevTake, DevFile(Three(s.d.free).0, 0), DevBump], Answered(s, p, r))
  {
    ChainFor(s, p, r);
    hide RingOk, ChainOk, SlotOk, HeadOk, ProcOk, Formatted, Three, RingPut, RingBump, RingTake, RingNext, Served;
    var h := Three(s.d.free).0;
    OneThrough(s.avail, h);
    OneThrough(s.used, h);
    var t := Submitted(s, p, r);
    assert Run(t, [], t);
    hide Run;
    var t1 := t.(avail := Through(s.avail, h), phase := s.phase[h := Taken]);
    RunMore(t, [], t, DevTake, t1);
    var t2 := t1.(used := RingPut(s.used, h), filing := Some(h), phase := s.phase[h := Filed],
                  info := s.info[h := Info(Some(r.b), 0)], served := s.served + [Answer(r, 0)]);
    FileNext(s, p, r, t1, t2);
    RunMore(t, [] + [DevTake], t1, DevFile(h, 0), t2);
    RunMore(t, [] + [DevTake] + [DevFile(h, 0)], t2, DevBump, Answered(s, p, r));
    assert [] + [DevTake] + [DevFile(h, 0)] + [DevBump] == [DevTake, DevFile(h, 0), DevBump];
  }

  /** ... and the handler has seen the answer. */
  function Handled(s: State, p: nat, r: Request): State
    requires Shaped(s) && p < |s.pcs| && CanAlloc(s.d)
  {
    var h := Three(s.d.free).0;
    Answered(s, p, r).(used := Through(s.used, h), busy := s.busy + {r.b} - {r.b}, phase := s.phase[h := Acked])
  }

  lemma Handles(s: State, p: nat, r: Request)
    requires Clear(s, p, r)
    ensures Run(Answered(s, p, r), [IntrStart, IntrOne, IntrEnd], Handled(s, p, r))
  {
    ChainFor(s, p, r);
    hide RingOk, ChainOk, SlotOk, HeadOk, ProcOk, Formatted, Three, RingPut, RingBump, RingTake, RingNext, Served;
    var h := Three(s.d.free).0;
    OneThrough(s.avail, h);
    OneThrough(s.used, h);
    var t := Answered(s, p, r);
    assert Run(t, [], t);
    hide Run;
    var t1 := t.(lock := Intr);
    RunMore(t, [], t, IntrStart, t1);
    var t2 := Handled(s, p, r).(lock := Intr);
    RunMore(t, [] + [IntrStart], t1, IntrOne, t2);
    RunMore(t, [] + [IntrStart] + [IntrOne], t2, IntrEnd, Handled(s, p, r));
    assert [] + [IntrStart] + [IntrOne] + [IntrEnd] == [IntrStart, IntrOne, IntrEnd];
  }

  /** ... and p has returned. */
  function Done(s: State, p: nat, r: Request): State
    requires Shaped(s) && p < |s.pcs| && CanAlloc(s.d)
  {
    var (h, j, k) := Three(s.d.free);
    var d := FreeDesc(FreeDesc(FreeDesc(Formatted(s.d, h, j, k, r), h), j), k);
    s.(d := d, info := s.info[h := Info(None, 0)], avail := Through(s.avail, h), used := Through(s.used, h),
       busy := s.busy + {r.b} - {r.b}, who := s.who[h := p], served := s.served + [Answer(r, 0)])
  }

  lemma Returns(s: State, p: nat, r: Request)
    requires Clear(s, p, r)
    ensures Run(Handled(s, p, r), [Wake(p), Finish(p)], Done(s, p, r))
  {
    ChainFor(s, p, r);
    hide RingOk, ChainOk, SlotOk, HeadOk, ProcOk, Formatted, Three, Served, FreeDesc, RingTake, RingPut, RingBump;
    var h := Three(s.d.free).0;
    OneThrough(s.avail, h);
    OneThrough(s.used, h);
    var t := Handled(s, p, r);
    assert Run(t, [], t);
    hide Run;
    var t1 := t.(lock := Held(p), pcs := s.pcs[p := Wait(r, h, |s.served|)]);
    RunMore(t, [], t, Wake(p), t1);
    assert Next(t1, Finish(p)).pcs == s.pcs && Next(t1, Finish(p)).phase == s.phase;
    RunMore(t, [] + [Wake(p)], t1, Finish(p), Done(s, p, r));
    assert [] + [Wake(p)] + [Finish(p)] == [Wake(p), Finish(p)];
  }

  /** A request that meets no other is served and returns: the same descriptors are free,
      both rings are empty and no lock is held. */
  lemma RequestGoesThrough(s: State, p: nat, r: Request)
    requires Clear(s, p, r)
    ensures var h := Three(s.d.free).0;
            Run(s, [Start(p, r), AllocOk(p), PutHead(p), Publish(p), Sleep(p)] + [DevTake, DevFile(h, 0), DevBump]
                   + [IntrStart, IntrOne, IntrEnd] + [Wake(p), Finish(p)], Done(s, p, r))
    ensures var t := Done(s, p, r);
            && t.pcs == s.pcs && t.lock == Unlocked && t.phase == s.phase && t.served == s.served + [Answer(r, 0)]
            && t.d.free == s.d.free && t.avail.unread == [] && t.used.unread == [] && t.filing == None
  {
    hide Run, RingOk, ChainOk, SlotOk, HeadOk, ProcOk, Submitted, Answered, Handled, RingTake, RingPut, RingBump;
    hide FirstFree;
    var h := Three(s.d.free).0;
    var a, b := [Start(p, r), AllocOk(p), PutHead(p), Publish(p), Sleep(p)], [DevTake, DevFile(h, 0), DevBump];
    var c, d := [IntrStart, IntrOne, IntrEnd], [Wake(p), Finish(p)];
    Submits(s, p, r);
    Answers(s, p, r);
    RunOn(s, a, Submitted(s, p, r), b, Answered(s, p, r));
    Handles(s, p, r);
    RunOn(s, a + b, Answered(s, p, r), c, Handled(s, p, r));
    Returns(s, p, r);
    RunOn(s, a + b + c, Handled(s, p, r), d, Done(s, p, r));
    OneThrough(s.avail, h);
    OneThrough(s.used, h);
    ThreeFree(s.d);
    assert Done(s, p, r).d.free == s.d.free;
  }
}
