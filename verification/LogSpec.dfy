/** The on-disk redo log: its layout, what recovery computes from a disk image, and
    what a crash after any single block write can leave behind (kernel/log.c). */
module LogSpec {
  import opened Common
  import opened Blocks

  const LOGSIZE := 3 * MAXOPBLOCKS

  /** Superblock fields that place the log: the header is block `start`, data slot i is
      block `start + 1 + i`, and the log area is `size` blocks long. */
  datatype Layout = Layout(start: nat, size: nat)

  function Slot(lay: Layout, i: nat): nat {
    lay.start + 1 + i
  }

  /** Slots that can be filled: the in-memory header has LOGSIZE entries and log_write
      refuses to go past `size - 1`. */
  function Capacity(lay: Layout): nat {
    if lay.size == 0 then 0 else if lay.size - 1 < LOGSIZE then lay.size - 1 else LOGSIZE
  }

  predicate InLog(lay: Layout, b: int) {
    lay.start <= b < lay.start + lay.size
  }

  predicate Fits(lay: Layout, d: DiskImage) {
    1 <= lay.size && lay.start + lay.size <= |d| <= UINT32
  }

  predicate Home(lay: Layout, d: DiskImage, b: int) {
    0 <= b < |d| && !InLog(lay, b)
  }

  ghost predicate Distinct(s: seq<nat>) {
    forall i, j :: 0 <= i < j < |s| ==> s[i] != s[j]
  }

  /** A block list that a transaction may commit. */
  ghost predicate Loggable(lay: Layout, d: DiskImage, lh: seq<nat>) {
    && |lh| <= Capacity(lay)
    && Distinct(lh)
    && forall i :: 0 <= i < |lh| ==> Home(lay, d, lh[i])
  }

  /** Two images that agree on every block outside the log area. */
  ghost predicate SameHome(lay: Layout, d: DiskImage, e: DiskImage) {
    |d| == |e| && forall b :: 0 <= b < |d| && !InLog(lay, b) ==> d[b] == e[b]
  }

  // ---- Header block ----

  /** write_head stores n and block[0..n); the rest of the old header block stays. */
  function SetWords(b: Block, at: nat, ws: seq<nat>): Block
    requires at + |ws| <= NWORDS
    requires forall i :: 0 <= i < |ws| ==> ws[i] < UINT32
  {
    if ws == [] then b
    else SetWord(SetWords(b, at, ws[..|ws| - 1]), at + |ws| - 1, ws[|ws| - 1])
  }

  function EncodeHead(prior: Block, lh: seq<nat>): Block
    requires |lh| <= LOGSIZE
    requires forall i :: 0 <= i < |lh| ==> lh[i] < UINT32
  {
    SetWords(SetWord(prior, 0, |lh|), 1, lh)
  }

  predicate HeadOk(b: Block) {
    Word(b, 0) <= LOGSIZE
  }

  function DecodeHead(b: Block): (lh: seq<nat>)
    requires HeadOk(b)
    ensures |lh| == Word(b, 0)
  {
    seq(Word(b, 0), i requires 0 <= i < Word(b, 0) => Word(b, 1 + i))
  }

  lemma {:induction false} WordOfSetWords(b: Block, at: nat, ws: seq<nat>, j: nat)
    requires at + |ws| <= NWORDS && j < NWORDS
    requires forall i :: 0 <= i < |ws| ==> ws[i] < UINT32
    ensures Word(SetWords(b, at, ws), j) == if at <= j < at + |ws| then ws[j - at] else Word(b, j)
  {
    if ws != [] {
      var front := ws[..|ws| - 1];
      WordOfSetWords(b, at, front, j);
      WordOfSetWord(SetWords(b, at, front), at + |ws| - 1, ws[|ws| - 1], j);
    }
  }

  /** The header survives its trip through the block format. */
  lemma {:induction false} HeadRoundTrip(prior: Block, lh: seq<nat>)
    requires |lh| <= LOGSIZE
    requires forall i :: 0 <= i < |lh| ==> lh[i] < UINT32
    ensures HeadOk(EncodeHead(prior, lh)) && DecodeHead(EncodeHead(prior, lh)) == lh
  {
    var b := SetWord(prior, 0, |lh|);
    WordOfSetWord(prior, 0, |lh|, 0);
    WordOfSetWords(b, 1, lh, 0);
    forall i | 0 <= i < |lh| ensures Word(EncodeHead(prior, lh), 1 + i) == lh[i] {
      WordOfSetWords(b, 1, lh, 1 + i);
    }
  }

  // ---- Recovery ----

  /** A disk on which recovery is meaningful: a header that lists distinct home blocks,
      no more of them than there are slots. */
  ghost predicate Recoverable(lay: Layout, d: DiskImage) {
    && Fits(lay, d)
    && HeadOk(d[lay.start])
    && Loggable(lay, d, DecodeHead(d[lay.start]))
  }

  function Header(lay: Layout, d: DiskImage): seq<nat>
    requires lay.start < |d| && HeadOk(d[lay.start])
  {
    DecodeHead(d[lay.start])
  }

  /** Copy slots [0..k) of the log over the home blocks that `lh` names. */
  function InstallFirst(lay: Layout, d: DiskImage, lh: seq<nat>, k: nat): (e: DiskImage)
    requires k <= |lh| && Slot(lay, |lh|) <= |d|
    requires forall i :: 0 <= i < |lh| ==> lh[i] < |d|
    ensures |e| == |d|
  {
    if k == 0 then d
    else
      var e := InstallFirst(lay, d, lh, k - 1);
      e[lh[k - 1] := e[Slot(lay, k - 1)]]
  }

  /** What recover_from_log leaves on disk. */
  function Recover(lay: Layout, d: DiskImage): DiskImage
    requires Recoverable(lay, d)
  {
    var lh := Header(lay, d);
    InstallFirst(lay, d, lh, |lh|)[lay.start := EncodeHead(d[lay.start], [])]
  }

  lemma {:induction false} InstallFirstAt(lay: Layout, d: DiskImage, lh: seq<nat>, k: nat, b: nat)
    requires Fits(lay, d) && Loggable(lay, d, lh) && k <= |lh| && b < |d|
    ensures |InstallFirst(lay, d, lh, k)| == |d|
    ensures forall i :: 0 <= i < k && lh[i] == b ==> InstallFirst(lay, d, lh, k)[b] == d[Slot(lay, i)]
    ensures b !in lh[..k] ==> InstallFirst(lay, d, lh, k)[b] == d[b]
  {
    if k != 0 {
      InstallFirstAt(lay, d, lh, k - 1, b);
      InstallFirstAt(lay, d, lh, k - 1, Slot(lay, k - 1));
      assert forall i :: 0 <= i < |lh| ==> Home(lay, d, lh[i]);
      assert lh[..k] == lh[..k - 1] + [lh[k - 1]];
    }
  }

  /** Recovery, block by block: logged home blocks take their slot, others stay, and the
      header ends up empty. */
  lemma {:induction false} RecoverAt(lay: Layout, d: DiskImage)
    requires Recoverable(lay, d)
    ensures |Recover(lay, d)| == |d|
    ensures forall i :: 0 <= i < |Header(lay, d)| ==>
              Recover(lay, d)[Header(lay, d)[i]] == d[Slot(lay, i)]
    ensures forall b :: Home(lay, d, b) && b !in Header(lay, d) ==> Recover(lay, d)[b] == d[b]
    ensures Recoverable(lay, Recover(lay, d)) && Header(lay, Recover(lay, d)) == []
  {
    var lh := Header(lay, d);
    forall b | Home(lay, d, b)
      ensures |InstallFirst(lay, d, lh, |lh|)| == |d|
      ensures forall i :: 0 <= i < |lh| && lh[i] == b ==> Recover(lay, d)[b] == d[Slot(lay, i)]
      ensures b !in lh ==> Recover(lay, d)[b] == d[b]
    {
      InstallFirstAt(lay, d, lh, |lh|, b);
      assert lh[..|lh|] == lh;
    }
    InstallFirstAt(lay, d, lh, |lh|, 0);
    HeadRoundTrip(d[lay.start], []);
    assert forall i :: 0 <= i < |lh| ==> Home(lay, d, lh[i]);
  }

  // ---- The effect of one block write on what recovery would compute ----

  /** With an empty header, filling a log slot is invisible. */
  lemma {:induction false} SlotWriteInvisible(lay: Layout, d: DiskImage, i: nat, data: Block)
    requires Recoverable(lay, d) && Header(lay, d) == [] && i < Capacity(lay)
    ensures var e := d[Slot(lay, i) := data];
            Recoverable(lay, e) && Header(lay, e) == [] && SameHome(lay, Recover(lay, e), Recover(lay, d))
  {
    var e := d[Slot(lay, i) := data];
    assert e[lay.start] == d[lay.start];
    RecoverAt(lay, d);
    RecoverAt(lay, e);
  }

  /** The disk after every block of `lh` received its new content. */
  ghost predicate Installed(lay: Layout, d: DiskImage, e: DiskImage, lh: seq<nat>, data: seq<Block>)
    requires |lh| == |data| && forall i :: 0 <= i < |lh| ==> lh[i] < |d|
  {
    && |e| == |d|
    && (forall i :: 0 <= i < |lh| ==> e[lh[i]] == data[i])
    && (forall b :: 0 <= b < |d| && !InLog(lay, b) && b !in lh ==> e[b] == d[b])
  }

  /** Writing the header is the commit point: recovery switches to the new contents. */
  lemma {:induction false} HeadWriteCommits(lay: Layout, d: DiskImage, lh: seq<nat>, data: seq<Block>)
    requires Recoverable(lay, d) && Header(lay, d) == [] && Loggable(lay, d, lh) && |data| == |lh|
    requires forall i :: 0 <= i < |lh| ==> d[Slot(lay, i)] == data[i]
    ensures var e := d[lay.start := EncodeHead(d[lay.start], lh)];
            Recoverable(lay, e) && Header(lay, e) == lh && Installed(lay, Recover(lay, d), Recover(lay, e), lh, data)
  {
    var e := d[lay.start := EncodeHead(d[lay.start], lh)];
    assert forall i :: 0 <= i < |lh| ==> Home(lay, d, lh[i]);
    HeadRoundTrip(d[lay.start], lh);
    RecoverAt(lay, d);
    RecoverAt(lay, e);
  }

  /** Installing one slot changes nothing that recovery would not redo. */
  lemma {:induction false} InstallInvisible(lay: Layout, d: DiskImage, i: nat)
    requires Recoverable(lay, d) && i < |Header(lay, d)|
    ensures var e := d[Header(lay, d)[i] := d[Slot(lay, i)]];
            && Recoverable(lay, e) && Header(lay, e) == Header(lay, d)
            && SameHome(lay, Recover(lay, e), Recover(lay, d))
            && forall j :: 0 <= j < |Header(lay, d)| ==> e[Slot(lay, j)] == d[Slot(lay, j)]
  {
    hide Recover;
    var lh := Header(lay, d);
    assert Home(lay, d, lh[i]);
    var e := d[lh[i] := d[Slot(lay, i)]];
    assert e[lay.start] == d[lay.start];
    assert forall j :: 0 <= j < |lh| ==> Home(lay, d, lh[j]);
    RecoverAt(lay, d);
    RecoverAt(lay, e);
  }

  /** Once every slot is installed, erasing the header loses nothing. */
  lemma {:induction false} ClearInvisible(lay: Layout, d: DiskImage)
    requires Recoverable(lay, d)
    requires forall i :: 0 <= i < |Header(lay, d)| ==> d[Header(lay, d)[i]] == d[Slot(lay, i)]
    ensures var e := d[lay.start := EncodeHead(d[lay.start], [])];
            Recoverable(lay, e) && Header(lay, e) == [] && SameHome(lay, Recover(lay, e), Recover(lay, d))
  {
    var e := d[lay.start := EncodeHead(d[lay.start], [])];
    HeadRoundTrip(d[lay.start], []);
    RecoverAt(lay, d);
    RecoverAt(lay, e);
  }
}
