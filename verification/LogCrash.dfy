/** Crash atomicity of commit and of recovery itself (kernel/log.c:67-123, 177-203). */
module LogCrash {
  import opened Common
  import opened Blocks
  import opened LogSpec

  /** Disk after the first k block writes of commit(): n slots, the header, n home
      blocks, the erased header. */
  function CommitDisk(lay: Layout, d: DiskImage, lh: seq<nat>, data: seq<Block>, k: nat): (e: DiskImage)
    requires Fits(lay, d) && Loggable(lay, d, lh) && |data| == |lh| && k <= 2 * |lh| + 2
    ensures |e| == |d|
  {
    if k == 0 then d else
      var e := CommitDisk(lay, d, lh, data, k - 1);
      assert forall i :: 0 <= i < |lh| ==> Home(lay, d, lh[i]);
      if k <= |lh| then e[Slot(lay, k - 1) := data[k - 1]]
      else if k == |lh| + 1 then e[lay.start := EncodeHead(e[lay.start], lh)]
      else if k <= 2 * |lh| + 1 then e[lh[k - |lh| - 2] := e[Slot(lay, k - |lh| - 2)]]
      else e[lay.start := EncodeHead(e[lay.start], [])]
  }

  /** Disk after the first k block writes of recover_from_log(), which stops after
      the last of them. */
  function RecoverDisk(lay: Layout, d: DiskImage, k: nat): (e: DiskImage)
    requires Recoverable(lay, d)
    ensures |e| == |d|
  {
    var lh := Header(lay, d);
    if k == 0 then d else
      var e := RecoverDisk(lay, d, k - 1);
      assert forall i :: 0 <= i < |lh| ==> Home(lay, d, lh[i]);
      if k <= |lh| then e[lh[k - 1] := e[Slot(lay, k - 1)]]
      else if k == |lh| + 1 then e[lay.start := EncodeHead(e[lay.start], [])]
      else e
  }

  /** Every disk image commit's first k writes go through, in order. */
  function CommitTrail(lay: Layout, d: DiskImage, lh: seq<nat>, data: seq<Block>, k: nat): (t: seq<DiskImage>)
    requires Fits(lay, d) && Loggable(lay, d, lh) && |data| == |lh| && k <= 2 * |lh| + 2
    ensures |t| == k
    ensures forall i :: 0 <= i < k ==> t[i] == CommitDisk(lay, d, lh, data, i + 1)
  {
    if k == 0 then [] else CommitTrail(lay, d, lh, data, k - 1) + [CommitDisk(lay, d, lh, data, k)]
  }

  lemma CommitStart(lay: Layout, d: DiskImage, lh: seq<nat>, data: seq<Block>)
    requires Fits(lay, d) && Loggable(lay, d, lh) && |data| == |lh|
    ensures CommitDisk(lay, d, lh, data, 0) == d && CommitTrail(lay, d, lh, data, 0) == []
  {
  }

  lemma CommitSlot(lay: Layout, d: DiskImage, lh: seq<nat>, data: seq<Block>, k: nat)
    requires Fits(lay, d) && Loggable(lay, d, lh) && |data| == |lh| && k < |lh|
    ensures Slot(lay, k) < |d|
    ensures CommitDisk(lay, d, lh, data, k + 1) == CommitDisk(lay, d, lh, data, k)[Slot(lay, k) := data[k]]
    ensures CommitTrail(lay, d, lh, data, k + 1)
            == CommitTrail(lay, d, lh, data, k) + [CommitDisk(lay, d, lh, data, k + 1)]
  {
  }

  /** The images install_trans goes through for its first k blocks. */
  function InstallTrail(lay: Layout, d: DiskImage, lh: seq<nat>, k: nat): (t: seq<DiskImage>)
    requires k <= |lh| && Slot(lay, |lh|) <= |d| && forall i :: 0 <= i < |lh| ==> lh[i] < |d|
    ensures |t| == k
  {
    if k == 0 then [] else InstallTrail(lay, d, lh, k - 1) + [InstallFirst(lay, d, lh, k)]
  }

  /** Every disk image recovery's first k writes go through. */
  function RecoverTrail(lay: Layout, d: DiskImage, k: nat): (t: seq<DiskImage>)
    requires Recoverable(lay, d)
    ensures |t| == k
    ensures forall i :: 0 <= i < k ==> t[i] == RecoverDisk(lay, d, i + 1)
  {
    if k == 0 then [] else RecoverTrail(lay, d, k - 1) + [RecoverDisk(lay, d, k)]
  }

  /** Any number of boots, the i-th of which crashes after ks[i] of its block writes. */
  ghost function CrashedBoots(lay: Layout, d: DiskImage, ks: seq<nat>): DiskImage
    requires Recoverable(lay, d)
    decreases |ks|
  {
    if ks == [] then d else
      CrashInRecovery(lay, d, ks[0]);
      CrashedBoots(lay, RecoverDisk(lay, d, ks[0]), ks[1..])
  }

  lemma {:induction false} SlotsWritten(lay: Layout, d: DiskImage, lh: seq<nat>, data: seq<Block>, k: nat)
    requires Recoverable(lay, d) && Header(lay, d) == [] && Loggable(lay, d, lh) && |data| == |lh|
    requires k <= |lh|
    ensures var e := CommitDisk(lay, d, lh, data, k);
            && Recoverable(lay, e) && Header(lay, e) == [] && SameHome(lay, Recover(lay, e), Recover(lay, d))
            && forall i :: 0 <= i < k ==> e[Slot(lay, i)] == data[i]
  {
    hide EncodeHead, DecodeHead, HeadOk, Recover, InstallFirst;
    if k != 0 {
      SlotsWritten(lay, d, lh, data, k - 1);
      SlotWriteInvisible(lay, CommitDisk(lay, d, lh, data, k - 1), k - 1, data[k - 1]);
    }
  }

  /** Past the commit point: the log on `e` holds the whole transaction, and recovering
      `e` applies it to `base`. */
  ghost predicate Logged(lay: Layout, base: DiskImage, e: DiskImage, lh: seq<nat>, data: seq<Block>)
    requires Loggable(lay, base, lh) && |data| == |lh|
  {
    assert forall i :: 0 <= i < |lh| ==> Home(lay, base, lh[i]);
    && Recoverable(lay, e) && Header(lay, e) == lh
    && (forall i :: 0 <= i < |lh| ==> e[Slot(lay, i)] == data[i])
    && Installed(lay, base, Recover(lay, e), lh, data)
  }

  lemma {:induction false} CommitPoint(lay: Layout, base: DiskImage, d: DiskImage, lh: seq<nat>, data: seq<Block>)
    requires Recoverable(lay, d) && Header(lay, d) == [] && SameHome(lay, Recover(lay, d), base)
    requires Loggable(lay, base, lh) && |data| == |lh|
    requires forall i :: 0 <= i < |lh| ==> d[Slot(lay, i)] == data[i]
    ensures Logged(lay, base, d[lay.start := EncodeHead(d[lay.start], lh)], lh, data)
  {
    hide EncodeHead, DecodeHead, HeadOk, Recover, InstallFirst;
    RecoverAt(lay, d);
    assert forall i :: 0 <= i < |lh| ==> Home(lay, base, lh[i]);
    HeadWriteCommits(lay, d, lh, data);
  }

  lemma {:induction false} InstallKeepsLogged(lay: Layout, base: DiskImage, e: DiskImage, lh: seq<nat>,
    data: seq<Block>, i: nat)
    requires Loggable(lay, base, lh) && |data| == |lh| && Logged(lay, base, e, lh, data) && i < |lh|
    ensures e[Slot(lay, i)] == data[i] && Logged(lay, base, e[lh[i] := data[i]], lh, data)
  {
    hide EncodeHead, DecodeHead, HeadOk, Recover, InstallFirst;
    RecoverAt(lay, e);
    assert forall i :: 0 <= i < |lh| ==> Home(lay, base, lh[i]);
    InstallInvisible(lay, e, i);
  }

  lemma {:induction false} ClearEndsCommit(lay: Layout, base: DiskImage, e: DiskImage, lh: seq<nat>, data: seq<Block>)
    requires Loggable(lay, base, lh) && |data| == |lh| && Logged(lay, base, e, lh, data)
    requires forall i :: 0 <= i < |lh| ==> e[lh[i]] == data[i]
    ensures var f := e[lay.start := EncodeHead(e[lay.start], [])];
            && Recoverable(lay, f) && Header(lay, f) == []
            && Installed(lay, base, Recover(lay, f), lh, data) && Installed(lay, base, f, lh, data)
  {
    hide EncodeHead, DecodeHead, HeadOk, Recover, InstallFirst;
    RecoverAt(lay, e);
    assert forall i :: 0 <= i < |lh| ==> Home(lay, base, lh[i]);
    ClearInvisible(lay, e);
    RecoverAt(lay, e[lay.start := EncodeHead(e[lay.start], [])]);
  }

  lemma {:induction false} EmptyLogRecovers(lay: Layout, d: DiskImage, e: DiskImage)
    requires Recoverable(lay, d) && Header(lay, d) == [] && SameHome(lay, e, Recover(lay, d))
    ensures SameHome(lay, e, d)
  {
    RecoverAt(lay, d);
  }

  lemma {:induction false} HomesWritten(lay: Layout, d: DiskImage, lh: seq<nat>, data: seq<Block>, j: nat)
    requires Recoverable(lay, d) && Header(lay, d) == [] && Loggable(lay, d, lh) && |data| == |lh|
    requires j <= |lh|
    ensures var e := CommitDisk(lay, d, lh, data, |lh| + 1 + j);
            Logged(lay, d, e, lh, data) && forall i :: 0 <= i < j ==> e[lh[i]] == data[i]
  {
    hide EncodeHead, DecodeHead, HeadOk, Recover, InstallFirst, Logged, SameHome;
    assert forall i :: 0 <= i < |lh| ==> Home(lay, d, lh[i]);
    if j == 0 {
      SlotsWritten(lay, d, lh, data, |lh|);
      EmptyLogRecovers(lay, d, Recover(lay, CommitDisk(lay, d, lh, data, |lh|)));
      CommitPoint(lay, d, CommitDisk(lay, d, lh, data, |lh|), lh, data);
    } else {
      HomesWritten(lay, d, lh, data, j - 1);
      InstallKeepsLogged(lay, d, CommitDisk(lay, d, lh, data, |lh| + j), lh, data, j - 1);
    }
  }

  /** When the header has been written, the slots hold the transaction. */
  lemma {:induction false} CommittedSlots(lay: Layout, d: DiskImage, lh: seq<nat>, data: seq<Block>)
    requires Recoverable(lay, d) && Header(lay, d) == [] && Loggable(lay, d, lh) && |data| == |lh|
    ensures var e := CommitDisk(lay, d, lh, data, |lh| + 1);
            Logged(lay, d, e, lh, data) && forall i :: 0 <= i < |lh| ==> e[Slot(lay, i)] == data[i]
  {
    hide EncodeHead, DecodeHead, HeadOk, Recover, InstallFirst;
    HomesWritten(lay, d, lh, data, 0);
  }

  /** Outside the log, `e` is `d` with all of the transaction applied, or none of it. */
  ghost predicate AllOrNothing(lay: Layout, d: DiskImage, e: DiskImage, lh: seq<nat>, data: seq<Block>, all: bool)
    requires Loggable(lay, d, lh) && |data| == |lh|
  {
    assert forall i :: 0 <= i < |lh| ==> Home(lay, d, lh[i]);
    if all then Installed(lay, d, e, lh, data) else SameHome(lay, e, d)
  }

  /** Recovery from each image of the trail gives all of the transaction once the header
      is written, none of it before. */
  ghost predicate CrashSafe(lay: Layout, d: DiskImage, trail: seq<DiskImage>, lh: seq<nat>, data: seq<Block>)
    requires Loggable(lay, d, lh) && |data| == |lh|
  {
    forall k :: 0 <= k < |trail| ==>
      Recoverable(lay, trail[k]) && AllOrNothing(lay, d, Recover(lay, trail[k]), lh, data, |lh| <= k)
  }

  /** A commit that is not interrupted applies the transaction and empties the log. */
  lemma {:induction false} CommitDone(lay: Layout, d: DiskImage, lh: seq<nat>, data: seq<Block>)
    requires Recoverable(lay, d) && Header(lay, d) == [] && Loggable(lay, d, lh) && |data| == |lh|
    ensures var e := CommitDisk(lay, d, lh, data, 2 * |lh| + 2);
            && Recoverable(lay, e) && Header(lay, e) == []
            && AllOrNothing(lay, d, Recover(lay, e), lh, data, true) && AllOrNothing(lay, d, e, lh, data, true)
  {
    hide EncodeHead, DecodeHead, HeadOk, Recover, InstallFirst;
    var n := |lh|;
    assert 2 * n + 1 == n + 1 + n;
    HomesWritten(lay, d, lh, data, n);
    ClearEndsCommit(lay, d, CommitDisk(lay, d, lh, data, 2 * n + 1), lh, data);
  }

  /** The disk recovery would produce from any prefix of commit's writes. */
  lemma {:induction false} CommitPrefix(lay: Layout, d: DiskImage, lh: seq<nat>, data: seq<Block>, k: nat)
    requires Recoverable(lay, d) && Header(lay, d) == [] && Loggable(lay, d, lh) && |data| == |lh|
    requires k <= 2 * |lh| + 2
    ensures Recoverable(lay, CommitDisk(lay, d, lh, data, k))
    ensures AllOrNothing(lay, d, Recover(lay, CommitDisk(lay, d, lh, data, k)), lh, data, |lh| < k)
  {
    hide EncodeHead, DecodeHead, HeadOk, Recover, InstallFirst, SameHome, CommitDisk, Installed;
    if k <= |lh| {
      SlotsWritten(lay, d, lh, data, k);
      EmptyLogRecovers(lay, d, Recover(lay, CommitDisk(lay, d, lh, data, k)));
    } else if k <= 2 * |lh| + 1 {
      var j := k - |lh| - 1;
      assert k == |lh| + 1 + j;
      HomesWritten(lay, d, lh, data, j);
    } else {
      CommitDone(lay, d, lh, data);
    }
  }

  /** Wherever commit is cut off, its transaction is all or nothing after recovery. */
  lemma {:induction false} CommitTrailSafe(lay: Layout, d: DiskImage, lh: seq<nat>, data: seq<Block>)
    requires Recoverable(lay, d) && Header(lay, d) == [] && Loggable(lay, d, lh) && |data| == |lh|
    ensures CrashSafe(lay, d, CommitTrail(lay, d, lh, data, 2 * |lh| + 2), lh, data)
  {
    hide EncodeHead, DecodeHead, HeadOk, Recover, InstallFirst, CommitDisk, AllOrNothing;
    var t := CommitTrail(lay, d, lh, data, 2 * |lh| + 2);
    forall k | 0 <= k < |t|
      ensures Recoverable(lay, t[k]) && AllOrNothing(lay, d, Recover(lay, t[k]), lh, data, |lh| <= k)
    {
      CommitPrefix(lay, d, lh, data, k + 1);
    }
  }

  lemma {:induction false} RecoverySteps(lay: Layout, d: DiskImage, k: nat)
    requires Recoverable(lay, d) && k <= |Header(lay, d)|
    ensures var e := RecoverDisk(lay, d, k);
            && Recoverable(lay, e) && Header(lay, e) == Header(lay, d)
            && SameHome(lay, Recover(lay, e), Recover(lay, d))
            && (forall i :: 0 <= i < |Header(lay, d)| ==> e[Slot(lay, i)] == d[Slot(lay, i)])
            && (forall i :: 0 <= i < k ==> e[Header(lay, d)[i]] == d[Slot(lay, i)])
  {
    hide EncodeHead, DecodeHead, HeadOk, Recover, InstallFirst;
    assert forall i :: 0 <= i < |Header(lay, d)| ==> Home(lay, d, Header(lay, d)[i]);
    if k != 0 {
      RecoverySteps(lay, d, k - 1);
      InstallInvisible(lay, RecoverDisk(lay, d, k - 1), k - 1);
    }
  }

  /** A crash inside recovery loses nothing, and recovery's last write leaves exactly
      Recover(d) outside the log, with an empty header. */
  lemma {:induction false} CrashInRecovery(lay: Layout, d: DiskImage, k: nat)
    requires Recoverable(lay, d)
    ensures var e := RecoverDisk(lay, d, k);
            && Recoverable(lay, e)
            && SameHome(lay, Recover(lay, e), Recover(lay, d))
            && (k > |Header(lay, d)| ==> Header(lay, e) == [] && SameHome(lay, e, Recover(lay, d)))
    decreases k
  {
    hide EncodeHead, DecodeHead, HeadOk, Recover, InstallFirst;
    var n := |Header(lay, d)|;
    RecoverAt(lay, d);
    if k <= n {
      RecoverySteps(lay, d, k);
    } else if k == n + 1 {
      RecoverySteps(lay, d, n);
      ClearInvisible(lay, RecoverDisk(lay, d, n));
      RecoverAt(lay, RecoverDisk(lay, d, k));
    } else {
      CrashInRecovery(lay, d, k - 1);
    }
  }

  lemma {:induction false} RecoverTrailSafe(lay: Layout, d: DiskImage, k: nat)
    requires Recoverable(lay, d)
    ensures forall e :: e in RecoverTrail(lay, d, k) ==>
              Recoverable(lay, e) && SameHome(lay, Recover(lay, e), Recover(lay, d))
  {
    hide EncodeHead, DecodeHead, HeadOk, Recover, InstallFirst, RecoverDisk, SameHome;
    forall e | e in RecoverTrail(lay, d, k)
      ensures Recoverable(lay, e) && SameHome(lay, Recover(lay, e), Recover(lay, d))
    {
      var i :| 0 <= i < k && RecoverTrail(lay, d, k)[i] == e;
      CrashInRecovery(lay, d, i + 1);
    }
  }

  lemma {:induction false} CrashedBootsHarmless(lay: Layout, d: DiskImage, ks: seq<nat>)
    requires Recoverable(lay, d)
    ensures Recoverable(lay, CrashedBoots(lay, d, ks))
    ensures SameHome(lay, Recover(lay, CrashedBoots(lay, d, ks)), Recover(lay, d))
    decreases |ks|
  {
    hide EncodeHead, DecodeHead, HeadOk, Recover, InstallFirst;
    RecoverAt(lay, d);
    if ks != [] {
      CrashInRecovery(lay, d, ks[0]);
      CrashedBootsHarmless(lay, RecoverDisk(lay, d, ks[0]), ks[1..]);
    }
  }

  // ---- The same disks as the installation loop sees them ----

  lemma {:induction false} CommitInstalls(lay: Layout, d: DiskImage, lh: seq<nat>, data: seq<Block>, j: nat)
    requires Fits(lay, d) && Loggable(lay, d, lh) && |data| == |lh| && j <= |lh|
    ensures var c := CommitDisk(lay, d, lh, data, |lh| + 1);
            && Loggable(lay, c, lh) && (forall i :: 0 <= i < |lh| ==> lh[i] < |c|)
            && CommitDisk(lay, d, lh, data, |lh| + 1 + j) == InstallFirst(lay, c, lh, j)
            && CommitTrail(lay, d, lh, data, |lh| + 1 + j) ==
               CommitTrail(lay, d, lh, data, |lh| + 1) + InstallTrail(lay, c, lh, j)
  {
    hide EncodeHead, DecodeHead, HeadOk, Recover;
    assert forall i :: 0 <= i < |lh| ==> Home(lay, d, lh[i]);
    if j != 0 {
      CommitInstalls(lay, d, lh, data, j - 1);
    }
  }

  /** The images up to the commit point. */
  lemma {:induction false} HeadEnds(lay: Layout, d: DiskImage, lh: seq<nat>, data: seq<Block>, h: seq<DiskImage>)
    requires Fits(lay, d) && Loggable(lay, d, lh) && |data| == |lh|
    ensures forall i :: 0 <= i < |lh| ==> lh[i] < UINT32
    ensures var e := CommitDisk(lay, d, lh, data, |lh|);
            var f := e[lay.start := EncodeHead(e[lay.start], lh)];
            && CommitDisk(lay, d, lh, data, |lh| + 1) == f
            && h + CommitTrail(lay, d, lh, data, |lh| + 1) == h + CommitTrail(lay, d, lh, data, |lh|) + [f]
  {
    hide EncodeHead, DecodeHead, HeadOk, Recover, InstallFirst;
    assert forall i :: 0 <= i < |lh| ==> Home(lay, d, lh[i]);
  }

  /** The images a whole commit goes through, assembled from its three loops. */
  lemma {:induction false} CommitEnds(lay: Layout, d: DiskImage, lh: seq<nat>, data: seq<Block>, h: seq<DiskImage>)
    requires Fits(lay, d) && Loggable(lay, d, lh) && |data| == |lh|
    ensures var n, c := |lh|, CommitDisk(lay, d, lh, data, |lh| + 1);
            && Loggable(lay, c, lh) && (forall i :: 0 <= i < |lh| ==> lh[i] < |c|)
            && var e := InstallFirst(lay, c, lh, n);
               var f := e[lay.start := EncodeHead(e[lay.start], [])];
               && CommitDisk(lay, d, lh, data, 2 * n + 2) == f
               && h + CommitTrail(lay, d, lh, data, 2 * n + 2)
                  == h + CommitTrail(lay, d, lh, data, n + 1) + InstallTrail(lay, c, lh, n) + [f]
  {
    hide EncodeHead, DecodeHead, HeadOk, Recover, InstallFirst;
    var n := |lh|;
    CommitInstalls(lay, d, lh, data, n);
    assert 2 * n + 2 == (n + 1 + n) + 1;
  }

  lemma {:induction false} RecoveryInstalls(lay: Layout, d: DiskImage, k: nat)
    requires Recoverable(lay, d) && k <= |Header(lay, d)|
    ensures forall i :: 0 <= i < |Header(lay, d)| ==> Header(lay, d)[i] < |d|
    ensures RecoverDisk(lay, d, k) == InstallFirst(lay, d, Header(lay, d), k)
    ensures RecoverTrail(lay, d, k) == InstallTrail(lay, d, Header(lay, d), k)
  {
    hide EncodeHead, DecodeHead, HeadOk, Recover;
    assert forall i :: 0 <= i < |Header(lay, d)| ==> Home(lay, d, Header(lay, d)[i]);
    if k != 0 {
      RecoveryInstalls(lay, d, k - 1);
    }
  }

  /** The images a whole recovery goes through. */
  lemma {:induction false} RecoverEnds(lay: Layout, d: DiskImage, h: seq<DiskImage>)
    requires Recoverable(lay, d)
    ensures var lh := Header(lay, d);
            && (forall i :: 0 <= i < |lh| ==> lh[i] < |d|)
            && var e := InstallFirst(lay, d, lh, |lh|);
               var f := e[lay.start := EncodeHead(e[lay.start], [])];
               && RecoverDisk(lay, d, |lh| + 1) == f
               && h + RecoverTrail(lay, d, |lh| + 1) == h + InstallTrail(lay, d, lh, |lh|) + [f]
  {
    hide EncodeHead, DecodeHead, HeadOk, Recover, InstallFirst;
    RecoveryInstalls(lay, d, |Header(lay, d)|);
  }

  /** Crash atomicity. Crash after any k block writes of a commit, let any number of
      boots crash at any point of their recovery, then let one recovery complete: the
      logged blocks are all old or all new, decided by whether the header write
      happened, and every other block outside the log is untouched. */
  lemma {:induction false} CrashAtomicity(lay: Layout, d: DiskImage, lh: seq<nat>, data: seq<Block>, k: nat,
    ks: seq<nat>, last: nat)
    requires Recoverable(lay, d) && Header(lay, d) == [] && Loggable(lay, d, lh) && |data| == |lh|
    requires k <= 2 * |lh| + 2
    ensures Recoverable(lay, CommitDisk(lay, d, lh, data, k))
    ensures var crashed := CrashedBoots(lay, CommitDisk(lay, d, lh, data, k), ks);
            && Recoverable(lay, crashed)
            && (last > |Header(lay, crashed)| ==>
                  AllOrNothing(lay, d, RecoverDisk(lay, crashed, last), lh, data, |lh| < k))
  {
    hide EncodeHead, DecodeHead, HeadOk, Recover, InstallFirst;
    CommitPrefix(lay, d, lh, data, k);
    var c := CommitDisk(lay, d, lh, data, k);
    CrashedBootsHarmless(lay, c, ks);
    var crashed := CrashedBoots(lay, c, ks);
    CrashInRecovery(lay, crashed, last);
    if last > |Header(lay, crashed)| {
      SameHomeKeeps(lay, d, Recover(lay, c), Recover(lay, crashed), lh, data, |lh| < k);
      SameHomeKeeps(lay, d, Recover(lay, crashed), RecoverDisk(lay, crashed, last), lh, data, |lh| < k);
    }
  }

  lemma {:induction false} SameHomeKeeps(lay: Layout, d: DiskImage, e: DiskImage, f: DiskImage, lh: seq<nat>,
    data: seq<Block>, all: bool)
    requires Loggable(lay, d, lh) && |data| == |lh| && AllOrNothing(lay, d, e, lh, data, all)
    requires SameHome(lay, f, e)
    ensures AllOrNothing(lay, d, f, lh, data, all)
  {
    hide EncodeHead, DecodeHead, HeadOk, Recover, InstallFirst;
    assert forall i :: 0 <= i < |lh| ==> Home(lay, d, lh[i]);
  }
}
