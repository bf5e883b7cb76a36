/** What every reachable state of VirtioMachine keeps: chains and free descriptors
    partition the table, ring entries survive until they are read, and a caller goes on
    only after the device has served its request. */
module VirtioInv {
  import opened Common
  import opened Virtio
  import opened VirtioMachine

  // ---- Rings ----

  ghost predicate NoDup(q: seq<nat>) {
    forall i, j :: 0 <= i < j < |q| ==> q[i] != q[j]
  }

  /** The ring holds what is to be read, across the wrap of both indices. */
  ghost predicate RingOk(r: Ring) {
    && |r.ring| == NUM && r.idx < WRAP && r.seen < WRAP && |r.unread| <= NUM
    && r.idx == (r.seen + |r.unread|) % WRAP && NoDup(r.unread)
    && forall k :: 0 <= k < |r.unread| ==> Entry(r, k) == r.unread[k]
  }

  function Entry(r: Ring, k: nat): nat
    requires |r.ring| == NUM
  {
    r.ring[(r.seen + k) % NUM]
  }

  lemma Slots(a: nat, k: nat)
    requires a < WRAP
    ensures (a + k) % WRAP % NUM == (a + k) % NUM
  {
    assert (a + k) == (a + k) / WRAP * WRAP + (a + k) % WRAP;
    assert (a + k) % NUM == (a + k) % WRAP % NUM;
  }

  lemma SlotsDiffer(a: nat, i: nat, j: nat)
    requires i < j < i + NUM
    ensures (a + i) % NUM != (a + j) % NUM
  {
  }

  /** Writing the next entry overwrites none that is unread. */
  lemma PutOk(r: Ring, h: nat)
    requires RingOk(r) && |r.unread| < NUM
    ensures RingOk(RingPut(r, h)) && RingPut(r, h).ring[r.idx % NUM] == h
  {
    var r' := RingPut(r, h);
    Slots(r.seen, |r.unread|);
    forall k | 0 <= k < |r.unread| ensures Entry(r', k) == r.unread[k] {
      SlotsDiffer(r.seen, k, |r.unread|);
      assert Entry(r, k) == r.unread[k];
    }
  }

  lemma BumpOk(r: Ring, h: nat)
    requires RingOk(r) && |r.unread| < NUM && r.ring[r.idx % NUM] == h && h !in r.unread
    ensures RingOk(RingBump(r, h))
  {
    var r' := RingBump(r, h);
    Slots(r.seen, |r.unread|);
    forall k | 0 <= k < |r'.unread| ensures Entry(r', k) == r'.unread[k] {
      if k < |r.unread| {
        assert Entry(r, k) == r.unread[k];
      }
    }
  }

  lemma TakeOk(r: Ring)
    requires RingOk(r) && r.seen != r.idx
    ensures r.unread != [] && RingNext(r) == r.unread[0] && RingOk(RingTake(r))
    ensures RingTake(r).unread == r.unread[1..] && r.unread[0] !in RingTake(r).unread
    ensures forall x :: x in RingTake(r).unread <==> x in r.unread && x != r.unread[0]
  {
    hide Entry, NoDup;
    TakeFirst(r);
    TakeRest(r.unread);
    TakeIdx(r);
    forall k | 0 <= k < |r.unread| - 1 ensures Entry(RingTake(r), k) == r.unread[1..][k] {
      TakeEntry(r, k);
      assert Entry(r, k + 1) == r.unread[k + 1];
    }
  }

  lemma TakeFirst(r: Ring)
    requires RingOk(r) && r.seen != r.idx
    ensures r.unread != [] && RingNext(r) == r.unread[0]
  {
    hide NoDup;
    assert r.unread != [] ==> Entry(r, 0) == r.unread[0];
  }

  lemma TakeRest(q: seq<nat>)
    requires NoDup(q) && q != []
    ensures NoDup(q[1..]) && q[0] !in q[1..] && forall x :: x in q[1..] <==> x in q && x != q[0]
  {
    assert q == [q[0]] + q[1..];
  }

  lemma TakeEntry(r: Ring, k: nat)
    requires |r.ring| == NUM && r.seen < WRAP
    ensures Entry(RingTake(r), k) == Entry(r, k + 1)
  {
    Slots(r.seen, 1);
    var x, y := (r.seen + 1) % WRAP, r.seen + 1;
    assert x % NUM == y % NUM;
    assert (x + k) % NUM == (y + k) % NUM;
  }

  lemma TakeIdx(r: Ring)
    requires r.seen < WRAP && r.idx == (r.seen + |r.unread|) % WRAP && r.unread != []
    ensures r.idx == ((r.seen + 1) % WRAP + (|r.unread| - 1)) % WRAP
  {
  }

  lemma {:induction false} Pigeon(q: seq<nat>, n: nat)
    requires NoDup(q) && forall k :: 0 <= k < |q| ==> q[k] < n
    ensures |q| <= n
    decreases n
  {
    if q != [] {
      assert q[0] < n;
      if n - 1 in q {
        var i :| 0 <= i < |q| && q[i] == n - 1;
        var q' := q[..i] + q[i + 1..];
        forall k | 0 <= k < |q'| ensures q'[k] < n - 1 {
          assert q'[k] == if k < i then q[k] else q[k + 1];
        }
        forall k, l | 0 <= k < l < |q'| ensures q'[k] != q'[l] {
          assert q'[k] == (if k < i then q[k] else q[k + 1]) && q'[l] == if l < i then q[l] else q[l + 1];
        }
        Pigeon(q', n - 1);
      } else {
        forall k | 0 <= k < |q| ensures q[k] < n - 1 {
          assert q[k] in q;
        }
        Pigeon(q, n - 1);
      }
    }
  }

  /** A duplicate-free list of descriptors that leaves one out is shorter than NUM. */
  lemma Shorter(q: seq<nat>, h: nat)
    requires NoDup(q) && h < NUM && h !in q && forall x :: x in q ==> x < NUM
    ensures |q| < NUM
  {
    var l := q + [h];
    forall k | 0 <= k < |l| ensures l[k] < NUM {
      assert k < |q| ==> q[k] in q;
    }
    Pigeon(l, NUM);
  }

  // ---- Chains ----

  /** The chain at h: command, data, status, for request r. */
  predicate ChainOk(d: Descs, h: nat, r: Request)
    requires |d.free| == NUM && |d.desc| == NUM && |d.ops| == NUM && |d.owner| == NUM && h < NUM
  {
    var j := d.desc[h].next;
    && j < NUM && d.desc[j].next < NUM
    && var k := d.desc[j].next;
       && h != j && j != k && h != k
       && d.desc[h] == Desc(Command(h), 16, false, true, j)
       && d.desc[j] == Desc(Data(r.b), BSIZE, !r.write, true, k)
       && d.desc[k] == Desc(Status(h), 1, true, false, 0)
       && d.ops[h] == Cmd(r.write, r.sector)
       && d.owner[h] == Some(h) && d.owner[j] == Some(h) && d.owner[k] == Some(h)
  }

  predicate InChain(d: Descs, h: nat, i: nat)
    requires |d.desc| == NUM && h < NUM
  {
    i == h || i == d.desc[h].next || (d.desc[h].next < NUM && i == d.desc[d.desc[h].next].next)
  }

  ghost predicate SlotOk(s: State, i: nat)
    requires Shaped(s) && i < NUM
  {
    && (s.d.free[i] <==> s.d.owner[i] == None)
    && (s.d.owner[i].Some? ==>
       s.d.owner[i].value < NUM && s.phase[s.d.owner[i].value] != NoChain && InChain(s.d, s.d.owner[i].value, i))
  }

  /** Since the request was set up the device has not touched its buffer. */
  predicate NotServed(s: State, r: Request, since: nat) {
    forall k :: since <= k < |s.served| ==> s.served[k].r.b != r.b
  }

  /** ... has served it, with this status, and touched its buffer no other time. */
  predicate ServedOnce(s: State, r: Request, since: nat, status: nat) {
    exists k :: since <= k < |s.served| && s.served[k] == Answer(r, status)
      && forall j :: since <= j < |s.served| && j != k ==> s.served[j].r.b != r.b
  }

  predicate Complete(ph: Phase) {
    ph == Filed || ph == Used || ph == Acked
  }

  /** A chain in flight belongs to the caller that waits for it. */
  ghost predicate HeadOk(s: State, h: nat)
    requires Shaped(s) && h < NUM
  {
    s.phase[h] != NoChain ==>
      && s.who[h] < |s.pcs| && Active(s.pcs[s.who[h]]) && s.pcs[s.who[h]].h == h
      && var pc := s.pcs[s.who[h]];
         && ChainOk(s.d, h, pc.r) && (pc.Put? || pc.Pub? <==> s.phase[h] == Made)
         && s.info[h].b == Some(pc.r.b) && (pc.r.b in s.busy <==> s.phase[h] != Acked)
         && pc.since <= |s.served|
         && (s.phase[h] == Acked ==> s.info[h].status == 0)
         && if Complete(s.phase[h]) then ServedOnce(s, pc.r, pc.since, s.info[h].status)
            else NotServed(s, pc.r, pc.since)
  }

  ghost predicate ProcOk(s: State, p: nat)
    requires Shaped(s) && p < |s.pcs|
  {
    var pc := s.pcs[p];
    && (s.lock == Held(p) <==> pc.Try? || pc.Put? || pc.Pub? || pc.Wait?)
    && (Active(pc) ==> pc.h < NUM && s.phase[pc.h] != NoChain && s.who[pc.h] == p)
    && (pc.Pub? ==> pc.h < NUM && s.avail.ring[s.avail.idx % NUM] == pc.h)
  }

  ghost predicate Buffers(s: State) {
    forall p, q :: 0 <= p < q < |s.pcs| && s.pcs[p] != Idle && s.pcs[q] != Idle ==> s.pcs[p].r.b != s.pcs[q].r.b
  }

  ghost predicate Rings(s: State)
    requires Shaped(s)
  {
    && RingOk(s.avail) && RingOk(s.used)
    && (forall h: nat :: h in s.avail.unread <==> h < NUM && s.phase[h] == Avail)
    && (forall h: nat :: h in s.used.unread <==> h < NUM && s.phase[h] == Used)
    && (forall h: nat :: s.filing == Some(h) <==> h < NUM && s.phase[h] == Filed)
    && (s.filing.Some? ==> s.used.ring[s.used.idx % NUM] == s.filing.value)
  }

  ghost predicate Inv(s: State) {
    && Shaped(s)
    && (forall i :: 0 <= i < NUM ==> SlotOk(s, i))
    && (forall h :: 0 <= h < NUM ==> HeadOk(s, h))
    && (forall p :: 0 <= p < |s.pcs| ==> ProcOk(s, p))
    && (s.lock.Held? ==> s.lock.p < |s.pcs|)
    && Buffers(s) && Rings(s)
  }

  // ---- Steps that only pass the lock ----

  lemma PassStep(s: State, a: Action)
    requires Inv(s) && Enabled(s, a) && (a.Start? || a.Retry? || a.AllocFail? || a.Sleep? || a.Wake?)
    ensures Inv(Next(s, a))
  {
    hide RingOk, ChainOk, CanAlloc, RingNext, DoAlloc, DoFinish, DoIntr, DoFile;
    var s' := Next(s, a);
    assert ProcOk(s, a.p);
    forall p | 0 <= p < |s'.pcs| ensures ProcOk(s', p) {
      assert ProcOk(s, p);
    }
    forall i | 0 <= i < NUM ensures SlotOk(s', i) {
      assert SlotOk(s, i);
    }
    forall h | 0 <= h < NUM ensures HeadOk(s', h) {
      assert HeadOk(s, h);
    }
  }

  lemma IntrPass(s: State, a: Action)
    requires Inv(s) && Enabled(s, a) && (a.IntrStart? || a.IntrEnd?)
    ensures Inv(Next(s, a))
  {
    hide RingOk, ChainOk, CanAlloc, RingNext, DoAlloc, DoFinish, DoIntr, DoFile;
    var s' := Next(s, a);
    forall p | 0 <= p < |s'.pcs| ensures ProcOk(s', p) {
      assert ProcOk(s, p);
    }
    forall i | 0 <= i < NUM ensures SlotOk(s', i) {
      assert SlotOk(s, i);
    }
    forall h | 0 <= h < NUM ensures HeadOk(s', h) {
      assert HeadOk(s, h);
    }
  }

  // ---- Steps on the rings ----

  lemma PutHeadStep(s: State, p: nat)
    requires Inv(s) && Enabled(s, PutHead(p))
    ensures Inv(Next(s, PutHead(p)))
  {
    hide RingOk, ChainOk, CanAlloc, RingNext, DoAlloc, DoFinish, DoIntr, DoFile, RingPut;
    var s', h := Next(s, PutHead(p)), s.pcs[p].h;
    assert ProcOk(s, p) && HeadOk(s, h);
    AvailRoom(s, h);
    PutOk(s.avail, h);
    PutSame(s.avail, h);
    forall q | 0 <= q < |s'.pcs| ensures ProcOk(s', q) {
      assert ProcOk(s, q);
    }
    forall i | 0 <= i < NUM ensures SlotOk(s', i) {
      assert SlotOk(s, i);
    }
    forall g | 0 <= g < NUM ensures HeadOk(s', g) {
      assert HeadOk(s, g);
    }
  }

  lemma AvailRoom(s: State, h: nat)
    requires Shaped(s) && Rings(s) && h < NUM && s.phase[h] != Avail
    ensures |s.avail.unread| < NUM && h !in s.avail.unread
  {
    Shorter(s.avail.unread, h);
  }

  lemma UsedRoom(s: State, h: nat)
    requires Shaped(s) && Rings(s) && h < NUM && s.phase[h] != Used
    ensures |s.used.unread| < NUM && h !in s.used.unread
  {
    Shorter(s.used.unread, h);
  }

  lemma PutSame(r: Ring, h: nat)
    requires |r.ring| == NUM
    ensures RingPut(r, h).unread == r.unread && RingPut(r, h).idx == r.idx && RingPut(r, h).seen == r.seen
    ensures |RingPut(r, h).ring| == NUM
  {
  }

  lemma PublishStep(s: State, p: nat)
    requires Inv(s) && Enabled(s, Publish(p))
    ensures Inv(Next(s, Publish(p)))
  {
    hide RingOk, ChainOk, CanAlloc, RingNext, DoAlloc, DoFinish, DoIntr, DoFile;
    var s', h := Next(s, Publish(p)), s.pcs[p].h;
    assert ProcOk(s, p) && HeadOk(s, h);
    AvailRoom(s, h);
    BumpOk(s.avail, h);
    forall q | 0 <= q < |s'.pcs| ensures ProcOk(s', q) {
      assert ProcOk(s, q);
    }
    forall i | 0 <= i < NUM ensures SlotOk(s', i) {
      assert SlotOk(s, i);
    }
    forall g | 0 <= g < NUM ensures HeadOk(s', g) {
      assert HeadOk(s, g);
    }
  }

  lemma DevTakeStep(s: State)
    requires Inv(s) && Enabled(s, DevTake)
    ensures Inv(Next(s, DevTake))
  {
    hide RingOk, ChainOk, CanAlloc, DoAlloc, DoFinish, DoIntr, DoFile, RingNext, RingTake;
    var s', h := Next(s, DevTake), RingNext(s.avail);
    TakeOk(s.avail);
    TakeSame(s.avail);
    assert h in s.avail.unread;
    forall q | 0 <= q < |s'.pcs| ensures ProcOk(s', q) {
      assert ProcOk(s, q);
    }
    forall i | 0 <= i < NUM ensures SlotOk(s', i) {
      assert SlotOk(s, i);
    }
    forall g | 0 <= g < NUM ensures HeadOk(s', g) {
      assert HeadOk(s, g);
    }
  }

  lemma TakeSame(r: Ring)
    ensures RingTake(r).ring == r.ring && RingTake(r).idx == r.idx
  {
  }

  lemma DevFileStep(s: State, h: nat, status: nat)
    requires Inv(s) && Enabled(s, DevFile(h, status))
    ensures Inv(Next(s, DevFile(h, status)))
  {
    hide RingOk, CanAlloc, DoAlloc, DoFinish, DoIntr, RingNext, RingPut, Served;
    var s' := Next(s, DevFile(h, status));
    assert HeadOk(s, h);
    ServedIs(s.d, h, s.pcs[s.who[h]].r);
    hide ChainOk;
    UsedRoom(s, h);
    PutOk(s.used, h);
    PutSame(s.used, h);
    forall q | 0 <= q < |s'.pcs| ensures ProcOk(s', q) {
      assert ProcOk(s, q);
    }
    forall i | 0 <= i < NUM ensures SlotOk(s', i) {
      assert SlotOk(s, i);
    }
    forall g | 0 <= g < NUM ensures HeadOk(s', g) {
      assert HeadOk(s, g);
      if g == h {
        ServedNow(s, s', s.pcs[s.who[h]].r, s.pcs[s.who[h]].since, status);
      } else if s.phase[g] != NoChain {
        OtherBuffer(s, g, h);
        var a := Answer(s.pcs[s.who[h]].r, status);
        ServedMore(s, s', s.pcs[s.who[g]].r, s.pcs[s.who[g]].since, s.info[g].status, a);
      }
    }
  }

  lemma ServedIs(d: Descs, h: nat, r: Request)
    requires |d.free| == NUM && |d.desc| == NUM && |d.ops| == NUM && |d.owner| == NUM && h < NUM && ChainOk(d, h, r)
    ensures Served(d, h) == Some(r)
  {
  }

  lemma ServedMore(s: State, s': State, r: Request, since: nat, status: nat, a: Answer)
    requires s'.served == s.served + [a] && a.r.b != r.b
    ensures ServedOnce(s, r, since, status) ==> ServedOnce(s', r, since, status)
    ensures NotServed(s, r, since) ==> NotServed(s', r, since)
  {
    if ServedOnce(s, r, since, status) {
      var k :| since <= k < |s.served| && s.served[k] == Answer(r, status)
        && forall j :: since <= j < |s.served| && j != k ==> s.served[j].r.b != r.b;
      assert s'.served[k] == Answer(r, status);
    }
  }

  lemma ServedNow(s: State, s': State, r: Request, since: nat, status: nat)
    requires s'.served == s.served + [Answer(r, status)] && since <= |s.served| && NotServed(s, r, since)
    ensures ServedOnce(s', r, since, status)
  {
    assert s'.served[|s.served|] == Answer(r, status);
  }

  lemma DevBumpStep(s: State)
    requires Inv(s) && Enabled(s, DevBump)
    ensures Inv(Next(s, DevBump))
  {
    hide RingOk, ChainOk, CanAlloc, DoAlloc, DoFinish, DoIntr, DoFile, RingNext;
    var s', h := Next(s, DevBump), s.filing.value;
    UsedRoom(s, h);
    BumpOk(s.used, h);
    forall q | 0 <= q < |s'.pcs| ensures ProcOk(s', q) {
      assert ProcOk(s, q);
    }
    forall i | 0 <= i < NUM ensures SlotOk(s', i) {
      assert SlotOk(s, i);
    }
    forall g | 0 <= g < NUM ensures HeadOk(s', g) {
      assert HeadOk(s, g);
    }
  }

  lemma IntrOneStep(s: State)
    requires Inv(s) && Enabled(s, IntrOne)
    ensures Inv(Next(s, IntrOne))
  {
    hide RingOk, ChainOk, CanAlloc, DoAlloc, DoFinish, DoFile, RingNext, RingTake;
    var s', h := Next(s, IntrOne), RingNext(s.used);
    TakeOk(s.used);
    TakeSame(s.used);
    assert h in s.used.unread && HeadOk(s, h);
    forall q | 0 <= q < |s'.pcs| ensures ProcOk(s', q) {
      assert ProcOk(s, q);
    }
    forall i | 0 <= i < NUM ensures SlotOk(s', i) {
      assert SlotOk(s, i);
    }
    forall g | 0 <= g < NUM ensures HeadOk(s', g) {
      assert HeadOk(s, g);
      if g != h && s.phase[g] != NoChain {
        OtherBuffer(s, g, h);
      }
    }
  }

  lemma OtherBuffer(s: State, g: nat, h: nat)
    requires Inv(s) && g < NUM && h < NUM && g != h && s.phase[g] != NoChain && s.phase[h] != NoChain
    ensures s.who[g] < |s.pcs| && s.who[h] < |s.pcs| && Active(s.pcs[s.who[g]]) && Active(s.pcs[s.who[h]])
    ensures s.pcs[s.who[g]].r.b != s.pcs[s.who[h]].r.b
  {
    hide RingOk, ChainOk;
    assert HeadOk(s, g) && HeadOk(s, h);
    assert s.who[g] != s.who[h];
  }

  // ---- Making and freeing a chain ----

  lemma ThreeFree(d: Descs)
    requires |d.free| == NUM && CanAlloc(d)
    ensures var (i, j, k) := Three(d.free); i < j < k < NUM && d.free[i] && d.free[j] && d.free[k]
  {
  }

  /** Setting up a chain in free descriptors leaves other chains alone. */
  lemma FormattedOther(d: Descs, i: nat, j: nat, k: nat, r: Request, h: nat, q: Request)
    requires |d.free| == NUM && |d.desc| == NUM && |d.ops| == NUM && |d.owner| == NUM && i < NUM && j < NUM && k < NUM
    requires h < NUM
    requires d.owner[i] == None && d.owner[j] == None && d.owner[k] == None && ChainOk(d, h, q)
    ensures ChainOk(Formatted(d, i, j, k, r), h, q)
    ensures forall x :: InChain(Formatted(d, i, j, k, r), h, x) <==> InChain(d, h, x)
  {
  }

  lemma FormattedNew(d: Descs, i: nat, j: nat, k: nat, r: Request)
    requires |d.free| == NUM && |d.desc| == NUM && |d.ops| == NUM && |d.owner| == NUM && i < j < k < NUM
    ensures var d' := Formatted(d, i, j, k, r);
            && ChainOk(d', i, r) && (forall x :: InChain(d', i, x) <==> x == i || x == j || x == k)
            && (forall x :: 0 <= x < NUM ==> d'.free[x] == (d.free[x] && x != i && x != j && x != k))
            && (forall x :: 0 <= x < NUM ==> d'.owner[x] == if x == i || x == j || x == k then Some(i) else d.owner[x])
            && |d'.free| == NUM && |d'.desc| == NUM && |d'.ops| == NUM && |d'.owner| == NUM
  {
  }

  /** The three descriptors taken are free, and no chain starts at the first. */
  lemma AllocFrom(s: State, p: nat)
    requires Inv(s) && Enabled(s, AllocOk(p))
    ensures var (i, j, k) := Three(s.d.free);
            && i < j < k < NUM && s.d.free[i] && s.d.free[j] && s.d.free[k] && s.phase[i] == NoChain
            && s.d.owner[i] == None && s.d.owner[j] == None && s.d.owner[k] == None
  {
    hide RingOk, ChainOk, InChain, Three, CanAlloc;
    var (i, j, k) := Three(s.d.free);
    ThreeFree(s.d);
    assert SlotOk(s, i) && SlotOk(s, j) && SlotOk(s, k);
    NotHead(s, i);
  }

  lemma AllocSlot(s: State, p: nat, x: nat)
    requires Inv(s) && Enabled(s, AllocOk(p)) && x < NUM
    ensures Shaped(DoAlloc(s, p)) && SlotOk(DoAlloc(s, p), x)
  {
    hide RingOk, ChainOk, InChain, RingNext, Formatted, Three, CanAlloc, ProcOk;
    var r := s.pcs[p].r;
    var (i, j, k) := Three(s.d.free);
    AllocFrom(s, p);
    FormattedNew(s.d, i, j, k, r);
    assert SlotOk(s, x);
    if s.d.owner[x].Some? {
      assert HeadOk(s, s.d.owner[x].value);
      FormattedOther(s.d, i, j, k, r, s.d.owner[x].value, s.pcs[s.who[s.d.owner[x].value]].r);
    }
  }

  lemma AllocHead(s: State, p: nat, g: nat)
    requires Inv(s) && Enabled(s, AllocOk(p)) && g < NUM
    ensures Shaped(DoAlloc(s, p)) && HeadOk(DoAlloc(s, p), g)
  {
    hide RingOk, ChainOk, InChain, RingNext, Formatted, Three, CanAlloc, SlotOk;
    var r := s.pcs[p].r;
    var (i, j, k) := Three(s.d.free);
    AllocFrom(s, p);
    FormattedNew(s.d, i, j, k, r);
    assert HeadOk(s, g);
    if g != i && s.phase[g] != NoChain {
      FormattedOther(s.d, i, j, k, r, g, s.pcs[s.who[g]].r);
      NotMine(s, g, p);
    }
  }

  lemma AllocOkStep(s: State, p: nat)
    requires Inv(s) && Enabled(s, AllocOk(p))
    ensures Inv(Next(s, AllocOk(p)))
  {
    hide RingOk, ChainOk, InChain, DoFinish, DoIntr, DoFile, RingNext, Formatted, Three, CanAlloc, SlotOk, HeadOk;
    var s' := Next(s, AllocOk(p));
    AllocFrom(s, p);
    AllocSlot(s, p, 0);
    assert ProcOk(s, p);
    forall q | 0 <= q < |s'.pcs| ensures ProcOk(s', q) {
      assert ProcOk(s, q);
    }
    forall x | 0 <= x < NUM ensures SlotOk(s', x) && HeadOk(s', x) {
      AllocSlot(s, p, x);
      AllocHead(s, p, x);
    }
  }

  lemma NotHead(s: State, i: nat)
    requires Inv(s) && i < NUM && s.d.free[i]
    ensures s.phase[i] == NoChain
  {
    hide RingOk;
    assert SlotOk(s, i) && HeadOk(s, i);
  }

  /** A caller that is not in flight uses a buffer no chain uses. */
  lemma NotMine(s: State, g: nat, p: nat)
    requires Inv(s) && g < NUM && s.phase[g] != NoChain && p < |s.pcs| && s.pcs[p] != Idle && !Active(s.pcs[p])
    ensures s.who[g] < |s.pcs| && s.who[g] != p && Active(s.pcs[s.who[g]]) && s.pcs[s.who[g]].r.b != s.pcs[p].r.b
  {
    hide RingOk, ChainOk;
    assert HeadOk(s, g);
  }

  lemma FreedOther(d: Descs, h: nat, j: nat, k: nat, g: nat, q: Request)
    requires |d.free| == NUM && |d.desc| == NUM && |d.ops| == NUM && |d.owner| == NUM && h < NUM && j < NUM && k < NUM
    requires g < NUM && g != h
    requires d.owner[h] == Some(h) && d.owner[j] == Some(h) && d.owner[k] == Some(h) && ChainOk(d, g, q)
    ensures var d' := FreeDesc(FreeDesc(FreeDesc(d, h), j), k);
            ChainOk(d', g, q) && forall x :: InChain(d', g, x) <==> InChain(d, g, x)
  {
  }

  lemma FreedShape(d: Descs, h: nat, j: nat, k: nat)
    requires |d.free| == NUM && |d.desc| == NUM && |d.ops| == NUM && |d.owner| == NUM && h < NUM && j < NUM && k < NUM
    ensures var d' := FreeDesc(FreeDesc(FreeDesc(d, h), j), k);
            && |d'.free| == NUM && |d'.desc| == NUM && |d'.ops| == NUM && |d'.owner| == NUM
            && (forall x :: 0 <= x < NUM ==> d'.free[x] == (d.free[x] || x == h || x == j || x == k))
            && (forall x :: 0 <= x < NUM ==> d'.owner[x] == if x == h || x == j || x == k then None else d.owner[x])
  {
  }

  lemma ChainEnds(d: Descs, h: nat, r: Request)
    requires |d.free| == NUM && |d.desc| == NUM && |d.ops| == NUM && |d.owner| == NUM && h < NUM && ChainOk(d, h, r)
    ensures d.desc[h].next < NUM && d.desc[d.desc[h].next].next < NUM
    ensures d.owner[h] == Some(h) && d.owner[d.desc[h].next] == Some(h)
    ensures d.owner[d.desc[d.desc[h].next].next] == Some(h)
    ensures forall x :: InChain(d, h, x) <==> x == h || x == d.desc[h].next || x == d.desc[d.desc[h].next].next
  {
  }

  lemma FinishSlot(s: State, p: nat, x: nat)
    requires Inv(s) && Enabled(s, Finish(p)) && x < NUM
    ensures Shaped(DoFinish(s, p)) && SlotOk(DoFinish(s, p), x)
  {
    hide RingOk, ChainOk, InChain, RingNext, FreeDesc, CanAlloc;
    var h := s.pcs[p].h;
    var j := s.d.desc[h].next;
    var k := s.d.desc[j].next;
    assert ProcOk(s, p) && HeadOk(s, h);
    ChainEnds(s.d, h, s.pcs[p].r);
    FreedShape(s.d, h, j, k);
    assert SlotOk(s, x);
    if s.d.owner[x].Some? && s.d.owner[x].value != h {
      assert HeadOk(s, s.d.owner[x].value);
      FreedOther(s.d, h, j, k, s.d.owner[x].value, s.pcs[s.who[s.d.owner[x].value]].r);
    }
  }

  lemma FinishHead(s: State, p: nat, g: nat)
    requires Inv(s) && Enabled(s, Finish(p)) && g < NUM
    ensures Shaped(DoFinish(s, p)) && HeadOk(DoFinish(s, p), g)
  {
    hide RingOk, ChainOk, InChain, RingNext, FreeDesc, CanAlloc, SlotOk;
    var h := s.pcs[p].h;
    var j := s.d.desc[h].next;
    var k := s.d.desc[j].next;
    assert ProcOk(s, p) && HeadOk(s, h) && HeadOk(s, g);
    ChainEnds(s.d, h, s.pcs[p].r);
    FreedShape(s.d, h, j, k);
    if g != h && s.phase[g] != NoChain {
      FreedOther(s.d, h, j, k, g, s.pcs[s.who[g]].r);
      OtherBuffer(s, g, h);
    }
  }

  lemma FinishStep(s: State, p: nat)
    requires Inv(s) && Enabled(s, Finish(p))
    ensures Inv(Next(s, Finish(p)))
  {
    hide RingOk, ChainOk, InChain, DoAlloc, DoIntr, DoFile, RingNext, FreeDesc, CanAlloc, SlotOk;
    var s', h := Next(s, Finish(p)), s.pcs[p].h;
    FinishSlot(s, p, 0);
    assert ProcOk(s, p) && HeadOk(s, h) && s.phase[h] == Acked;
    forall q | 0 <= q < |s'.pcs| ensures ProcOk(s', q) {
      assert ProcOk(s, q);
    }
    forall x | 0 <= x < NUM ensures SlotOk(s', x) && HeadOk(s', x) {
      FinishSlot(s, p, x);
      FinishHead(s, p, x);
    }
  }

  // ---- Every run ----

  lemma StepInv(s: State, a: Action)
    requires Inv(s) && Enabled(s, a)
    ensures Inv(Next(s, a))
  {
    hide Inv, Next, Enabled;
    match a
    case Start(_, _) => PassStep(s, a);
    case Retry(_) => PassStep(s, a);
    case AllocFail(_) => PassStep(s, a);
    case AllocOk(p) => AllocOkStep(s, p);
    case PutHead(p) => PutHeadStep(s, p);
    case Publish(p) => PublishStep(s, p);
    case Sleep(_) => PassStep(s, a);
    case Wake(_) => PassStep(s, a);
    case Finish(p) => FinishStep(s, p);
    case IntrStart => IntrPass(s, a);
    case IntrOne => IntrOneStep(s);
    case IntrEnd => IntrPass(s, a);
    case DevTake => DevTakeStep(s);
    case DevFile(h, status) => DevFileStep(s, h, status);
    case DevBump => DevBumpStep(s);
  }

  lemma InitInv(n: nat)
    ensures Inv(Init(n))
  {
    var s := Init(n);
    assert RingOk(s.avail) && RingOk(s.used);
  }

  lemma {:induction false} ReachableInv(s: State, n: nat, acts: seq<Action>)
    requires Reachable(s, n, acts)
    ensures Inv(s)
    decreases |acts|
  {
    hide Inv, Next, Enabled;
    if acts == [] {
      InitInv(n);
    } else {
      var m := |acts| - 1;
      var r :| Reachable(r, n, acts[..m]) && Enabled(r, acts[m]) && s == Next(r, acts[m]);
      ReachableInv(r, n, acts[..m]);
      StepInv(r, acts[m]);
    }
  }

  // ---- Results ----

  /** Every descriptor is free or in exactly one chain of three in flight. */
  lemma Partition(s: State, n: nat, acts: seq<Action>, i: nat)
    requires Reachable(s, n, acts) && i < NUM
    ensures Shaped(s)
    ensures s.d.free[i] <==> !exists h :: 0 <= h < NUM && s.phase[h] != NoChain && InChain(s.d, h, i)
    ensures forall g, h :: (0 <= g < NUM && 0 <= h < NUM && s.phase[g] != NoChain && s.phase[h] != NoChain
                            && InChain(s.d, g, i) && InChain(s.d, h, i)) ==> g == h
    ensures s.phase[i] != NoChain ==>
              && s.d.desc[i].hasNext && s.d.desc[i].next < NUM && s.d.desc[s.d.desc[i].next].hasNext
              && s.d.desc[s.d.desc[i].next].next < NUM && !s.d.desc[s.d.desc[s.d.desc[i].next].next].hasNext
  {
    hide RingOk;
    ReachableInv(s, n, acts);
    assert SlotOk(s, i) && HeadOk(s, i);
    forall h | 0 <= h < NUM && s.phase[h] != NoChain && InChain(s.d, h, i) ensures s.d.owner[i] == Some(h) {
      assert HeadOk(s, h);
    }
  }

  /** The avail slot the driver is about to write holds no entry the device has yet to
      read. */
  lemma AvailKept(s: State, n: nat, acts: seq<Action>, p: nat, k: nat)
    requires Reachable(s, n, acts) && p < |s.pcs| && s.pcs[p].Put? && k < |s.avail.unread|
    ensures Shaped(s) && (s.avail.seen + k) % NUM != s.avail.idx % NUM && Entry(s.avail, k) == s.avail.unread[k]
  {
    hide RingOk, ChainOk, Reachable;
    ReachableInv(s, n, acts);
    assert ProcOk(s, p) && HeadOk(s, s.pcs[p].h);
    AvailRoom(s, s.pcs[p].h);
    SlotFar(s.avail, k);
  }

  /** The used slot the device is about to write holds no entry the handler has yet to
      read. */
  lemma UsedKept(s: State, n: nat, acts: seq<Action>, h: nat, k: nat)
    requires Reachable(s, n, acts) && Shaped(s) && h < NUM && s.phase[h] == Taken && k < |s.used.unread|
    ensures (s.used.seen + k) % NUM != s.used.idx % NUM && Entry(s.used, k) == s.used.unread[k]
  {
    hide RingOk, ChainOk, Reachable;
    ReachableInv(s, n, acts);
    UsedRoom(s, h);
    SlotFar(s.used, k);
  }

  lemma SlotFar(r: Ring, k: nat)
    requires RingOk(r) && |r.unread| < NUM
    ensures k < |r.unread| ==> (r.seen + k) % NUM != r.idx % NUM && Entry(r, k) == r.unread[k]
  {
    if k < |r.unread| {
      Slots(r.seen, |r.unread|);
      SlotsDiffer(r.seen, k, |r.unread|);
      assert Entry(r, k) == r.unread[k];
    }
  }

  /** virtio_disk_rw goes on only after the device has served its own request, with
      success. */
  lemma OwnRequestServed(s: State, n: nat, acts: seq<Action>, p: nat)
    requires Reachable(s, n, acts) && p < |s.pcs| && s.pcs[p].Wait? && s.pcs[p].r.b !in s.busy
    ensures Enabled(s, Finish(p)) && s.pcs[p].h < NUM && s.info[s.pcs[p].h].status == 0
    ensures ServedOnce(s, s.pcs[p].r, s.pcs[p].since, 0)
  {
    hide RingOk;
    ReachableInv(s, n, acts);
    assert ProcOk(s, p) && HeadOk(s, s.pcs[p].h);
  }

  /** The interrupt handler finds a chain in flight, its buffer, and the status that the
      device gave to that chain's request; its panic test stops it exactly when the device
      reported an error. */
  lemma InterruptSafe(s: State, n: nat, acts: seq<Action>)
    requires Reachable(s, n, acts) && s.lock == Intr && s.used.seen != s.used.idx
    ensures var h := RingNext(s.used);
            && h < NUM && s.phase[h] == Used && s.info[h].b.Some? && s.who[h] < |s.pcs| && Active(s.pcs[s.who[h]])
            && ServedOnce(s, s.pcs[s.who[h]].r, s.pcs[s.who[h]].since, s.info[h].status)
            && (Enabled(s, IntrOne) <==> s.info[h].status == 0)
  {
    hide ChainOk;
    ReachableInv(s, n, acts);
    TakeOk(s.used);
    assert RingNext(s.used) in s.used.unread;
    assert HeadOk(s, RingNext(s.used));
  }

  /** What the device takes from the avail ring is a well-formed chain for the request
      its caller made. */
  lemma DeviceReads(s: State, n: nat, acts: seq<Action>)
    requires Reachable(s, n, acts) && s.avail.seen != s.avail.idx
    ensures Enabled(s, DevTake) && s.who[RingNext(s.avail)] < |s.pcs| && Active(s.pcs[s.who[RingNext(s.avail)]])
    ensures Served(s.d, RingNext(s.avail)) == Some(s.pcs[s.who[RingNext(s.avail)]].r)
  {
    hide ChainOk, Served;
    ReachableInv(s, n, acts);
    TakeOk(s.avail);
    var h := RingNext(s.avail);
    assert h in s.avail.unread;
    assert HeadOk(s, h);
    ServedIs(s.d, h, s.pcs[s.who[h]].r);
  }
}
