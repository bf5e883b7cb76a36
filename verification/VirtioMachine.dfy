/** Every interleaving of virtio_disk_rw calls, the interrupt handler and the device, one
    step per critical section, ring access or index update. A sleeping caller may be
    woken at any time. */
module VirtioMachine {
  import opened Common
  import opened Virtio

  datatype Owner = Unlocked | Held(p: nat) | Intr

  /** Where a caller is. `h` is the head of its chain; `since` is how many requests the
      device had served when this one was set up. */
  datatype PC =
    | Idle
    | Try(r: Request)                          // lock: about to allocate
    | Starved(r: Request)                      // no lock: asleep until descriptors are free
    | Put(r: Request, h: nat, since: nat)      // lock: about to write the avail ring
    | Pub(r: Request, h: nat, since: nat)      // lock: about to add 1 to avail->idx
    | Wait(r: Request, h: nat, since: nat)     // lock: about to test b->disk
    | Asleep(r: Request, h: nat, since: nat)   // no lock

  /** How far the chain headed at a descriptor has come. */
  datatype Phase = NoChain | Made | Avail | Taken | Filed | Used | Acked

  /** info[h]: the buffer and the status byte. */
  datatype Info = Info(b: Option<nat>, status: nat)

  /** What the device did with a request: 0 for success, else an error. */
  datatype Answer = Answer(r: Request, status: nat)

  /** avail and used are the rings; `filing` is the chain whose used entry the device has
      written but not yet published; busy holds the buffers with b->disk set. `phase`,
      `who` and `served` are bookkeeping. */
  datatype State = State(d: Descs, info: seq<Info>, avail: Ring, used: Ring, filing: Option<nat>, busy: set<nat>,
                         lock: Owner, pcs: seq<PC>, phase: seq<Phase>, who: seq<nat>, served: seq<Answer>)

  datatype Action =
    | Start(p: nat, r: Request)
    | Retry(p: nat)
    | AllocFail(p: nat)
    | AllocOk(p: nat)
    | PutHead(p: nat)
    | Publish(p: nat)
    | Sleep(p: nat)
    | Wake(p: nat)
    | Finish(p: nat)
    | IntrStart
    | IntrOne
    | IntrEnd
    | DevTake
    | DevFile(h: nat, status: nat)
    | DevBump

  predicate Shaped(s: State) {
    && |s.d.free| == NUM && |s.d.desc| == NUM && |s.d.ops| == NUM && |s.d.owner| == NUM && |s.info| == NUM
    && |s.avail.ring| == NUM && |s.used.ring| == NUM && |s.phase| == NUM && |s.who| == NUM
  }

  predicate Active(pc: PC) {
    pc.Put? || pc.Pub? || pc.Wait? || pc.Asleep?
  }

  /** The caller of virtio_disk_rw holds the buffer's sleep-lock: nobody else uses it. */
  predicate BufferFree(s: State, b: nat) {
    forall q :: 0 <= q < |s.pcs| ==> s.pcs[q] == Idle || s.pcs[q].r.b != b
  }

  predicate ChainAt(d: Descs, h: nat)
    requires |d.desc| == NUM
  {
    h < NUM && d.desc[h].next < NUM && d.desc[d.desc[h].next].next < NUM
  }

  predicate Enabled(s: State, a: Action) {
    && Shaped(s)
    && match a
       case Start(p, r) => p < |s.pcs| && s.pcs[p] == Idle && s.lock == Unlocked && BufferFree(s, r.b)
       case Retry(p) => p < |s.pcs| && s.pcs[p].Starved? && s.lock == Unlocked
       case AllocFail(p) => p < |s.pcs| && s.pcs[p].Try? && !CanAlloc(s.d)
       case AllocOk(p) => p < |s.pcs| && s.pcs[p].Try? && CanAlloc(s.d)
       case PutHead(p) => p < |s.pcs| && s.pcs[p].Put?
       case Publish(p) => p < |s.pcs| && s.pcs[p].Pub?
       case Sleep(p) => p < |s.pcs| && s.pcs[p].Wait? && s.pcs[p].r.b in s.busy
       case Wake(p) => p < |s.pcs| && s.pcs[p].Asleep? && s.lock == Unlocked
       case Finish(p) => p < |s.pcs| && s.pcs[p].Wait? && s.pcs[p].r.b !in s.busy && ChainAt(s.d, s.pcs[p].h)
       case IntrStart => s.lock == Unlocked
       case IntrOne => s.lock == Intr && s.used.seen != s.used.idx && RingNext(s.used) < NUM
         && s.info[RingNext(s.used)].b.Some? && s.info[RingNext(s.used)].status == 0
       case IntrEnd => s.lock == Intr && s.used.seen == s.used.idx
       case DevTake => s.avail.seen != s.avail.idx && RingNext(s.avail) < NUM
       case DevFile(h, _) => h < NUM && s.phase[h] == Taken && s.filing == None && Served(s.d, h).Some?
       case DevBump => s.filing.Some? && s.filing.value < NUM
  }

  function Go(s: State, p: nat, pc: PC): State
    requires p < |s.pcs|
  {
    s.(pcs := s.pcs[p := pc])
  }

  function DoAlloc(s: State, p: nat): State
    requires Enabled(s, AllocOk(p))
  {
    var (i, j, k) := Three(s.d.free);
    var r := s.pcs[p].r;
    Go(s, p, Put(r, i, |s.served|)).(d := Formatted(s.d, i, j, k, r), info := s.info[i := Info(Some(r.b), 0xff)],
                                     busy := s.busy + {r.b}, phase := s.phase[i := Made], who := s.who[i := p])
  }

  function DoFinish(s: State, p: nat): State
    requires Enabled(s, Finish(p))
  {
    var h := s.pcs[p].h;
    var j := s.d.desc[h].next;
    var k := s.d.desc[j].next;
    Go(s, p, Idle).(d := FreeDesc(FreeDesc(FreeDesc(s.d, h), j), k), info := s.info[h := Info(None, s.info[h].status)],
                    lock := Unlocked, phase := s.phase[h := NoChain])
  }

  function DoIntr(s: State): State
    requires Enabled(s, IntrOne)
  {
    var id := RingNext(s.used);
    s.(used := RingTake(s.used), busy := s.busy - {s.info[id].b.value}, phase := s.phase[id := Acked])
  }

  function DoFile(s: State, h: nat, status: nat): State
    requires Enabled(s, DevFile(h, status))
  {
    s.(used := RingPut(s.used, h), filing := Some(h), phase := s.phase[h := Filed],
       info := s.info[h := Info(s.info[h].b, status)], served := s.served + [Answer(Served(s.d, h).value, status)])
  }

  function Next(s: State, a: Action): State
    requires Enabled(s, a)
  {
    match a
    case Start(p, r) => Go(s, p, Try(r)).(lock := Held(p))
    case Retry(p) => Go(s, p, Try(s.pcs[p].r)).(lock := Held(p))
    case AllocFail(p) => Go(s, p, Starved(s.pcs[p].r)).(lock := Unlocked)
    case AllocOk(p) => DoAlloc(s, p)
    case PutHead(p) => Go(s, p, Pub(s.pcs[p].r, s.pcs[p].h, s.pcs[p].since)).(avail := RingPut(s.avail, s.pcs[p].h))
    case Publish(p) =>
      if s.pcs[p].h < NUM then
        Go(s, p, Wait(s.pcs[p].r, s.pcs[p].h, s.pcs[p].since)).(avail := RingBump(s.avail, s.pcs[p].h), phase :=
          s.phase[s.pcs[p].h := Avail])
      else s
    case Sleep(p) => Go(s, p, Asleep(s.pcs[p].r, s.pcs[p].h, s.pcs[p].since)).(lock := Unlocked)
    case Wake(p) => Go(s, p, Wait(s.pcs[p].r, s.pcs[p].h, s.pcs[p].since)).(lock := Held(p))
    case Finish(p) => DoFinish(s, p)
    case IntrStart => s.(lock := Intr)
    case IntrOne => DoIntr(s)
    case IntrEnd => s.(lock := Unlocked)
    case DevTake => s.(avail := RingTake(s.avail), phase := s.phase[RingNext(s.avail) := Taken])
    case DevFile(h, status) => DoFile(s, h, status)
    case DevBump => s.(used := RingBump(s.used, s.filing.value), filing := None, phase :=
      s.phase[s.filing.value := Used])
  }

  function Init(n: nat): State {
    State(Descs(seq(NUM, i => true), seq(NUM, i => NODESC), seq(NUM, i => Cmd(false, 0)), seq(NUM, i => None)),
          seq(NUM, i => Info(None, 0)), Ring(0, seq(NUM, i => 0), 0, []), Ring(0, seq(NUM, i => 0), 0, []), None, {},
          Unlocked, seq(n, i => Idle), seq(NUM, i => NoChain), seq(NUM, i => 0), [])
  }

  ghost predicate Reachable(s: State, n: nat, acts: seq<Action>)
    decreases |acts|
  {
    if acts == [] then s == Init(n)
    else
      var m := |acts| - 1;
      exists r :: Reachable(r, n, acts[..m]) && Enabled(r, acts[m]) && s == Next(r, acts[m])
  }
}
