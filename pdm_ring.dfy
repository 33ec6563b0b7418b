/**
 * The buffer ring of the PDM-to-SAI loop-back demo: BUFFER_NUMBER slots of
 * BUFFER_SIZE bytes, a read index for PDM captures, a write index for SAI
 * playback, and the count of slots that are free to capture into.
 */
module PdmRing {
  import opened CTypes

  const BUFFER_SIZE: nat := 1024
  const BUFFER_NUMBER: nat := 4

  /** A byte range [offset, offset + size) of s_buffer handed to a driver. */
  datatype Window = Window(offset: nat, size: nat)

  /** The slot `idx` of s_buffer: s_buffer + idx * BUFFER_SIZE, BUFFER_SIZE bytes. */
  function SlotWindow(idx: nat): (w: Window)
    requires idx < BUFFER_NUMBER
    ensures w.size == BUFFER_SIZE
    ensures w.offset + w.size <= BUFFER_SIZE * BUFFER_NUMBER
    ensures w.offset % BUFFER_SIZE == 0 && w.offset / BUFFER_SIZE == idx
  {
    Window(idx * BUFFER_SIZE, BUFFER_SIZE)
  }

  /** Windows of two different slots do not overlap. */
  lemma SlotWindowsDisjoint(i: nat, j: nat)
    requires i < BUFFER_NUMBER && j < BUFFER_NUMBER && i != j
    ensures SlotWindow(i).offset + BUFFER_SIZE <= SlotWindow(j).offset
         || SlotWindow(j).offset + BUFFER_SIZE <= SlotWindow(i).offset
  {
    if i < j {
      assert SlotWindow(j).offset - SlotWindow(i).offset == (j - i) * BUFFER_SIZE;
    } else {
      assert SlotWindow(i).offset - SlotWindow(j).offset == (i - j) * BUFFER_SIZE;
    }
  }

  /**
   * The index update after an attempted transfer: incremented when the driver
   * accepted it, then reset to 0 if it reached BUFFER_NUMBER.
   */
  function Advance(idx: nat, accepted: bool): (next: nat)
    requires idx < BUFFER_NUMBER
    ensures next < BUFFER_NUMBER
    ensures accepted ==> next == (idx + 1) % BUFFER_NUMBER
    ensures !accepted ==> next == idx
  {
    var bumped := if accepted then idx + 1 else idx;
    if bumped == BUFFER_NUMBER then 0 else bumped
  }

  /** Number of accepted transfers among the outcomes. */
  function Accepted(outcomes: seq<bool>): (n: nat)
    ensures n <= |outcomes|
  {
    if outcomes == [] then 0 else (if outcomes[0] then 1 else 0) + Accepted(outcomes[1..])
  }

  /** The index after a run of attempted transfers with the given outcomes. */
  function IndexAfter(idx: nat, outcomes: seq<bool>): (r: nat)
    requires idx < BUFFER_NUMBER
    ensures r < BUFFER_NUMBER
    decreases |outcomes|
  {
    if outcomes == [] then idx else IndexAfter(Advance(idx, outcomes[0]), outcomes[1..])
  }

  /** The index counts accepted transfers modulo BUFFER_NUMBER; failed ones leave no trace. */
  lemma {:induction false} IndexAfterCountsAccepted(idx: nat, outcomes: seq<bool>)
    requires idx < BUFFER_NUMBER
    ensures IndexAfter(idx, outcomes) == (idx + Accepted(outcomes)) % BUFFER_NUMBER
    decreases |outcomes|
  {
    if outcomes != [] {
      var next := Advance(idx, outcomes[0]);
      IndexAfterCountsAccepted(next, outcomes[1..]);
      var rest := Accepted(outcomes[1..]);
      if outcomes[0] {
        assert next == (idx + 1) % BUFFER_NUMBER;
        ModAddAssoc(idx + 1, rest);
      } else {
        assert (idx + Accepted(outcomes)) == idx + rest;
      }
    }
  }

  /** ((a mod N) + b) mod N == (a + b) mod N for N = BUFFER_NUMBER. */
  lemma ModAddAssoc(a: nat, b: nat)
    ensures (a % BUFFER_NUMBER + b) % BUFFER_NUMBER == (a + b) % BUFFER_NUMBER
  {
    var q := a / BUFFER_NUMBER;
    assert a == q * BUFFER_NUMBER + a % BUFFER_NUMBER;
    assert a + b == (a % BUFFER_NUMBER + b) + q * BUFFER_NUMBER;
  }

  /** The slots used by the accepted transfers of a run, in order. */
  function SlotsUsed(idx: nat, outcomes: seq<bool>): (slots: seq<nat>)
    requires idx < BUFFER_NUMBER
    ensures |slots| == Accepted(outcomes)
    decreases |outcomes|
  {
    if outcomes == [] then []
    else (if outcomes[0] then [idx] else []) + SlotsUsed(Advance(idx, outcomes[0]), outcomes[1..])
  }

  /**
   * Accepted transfers use the slots cyclically: the k-th accepted transfer
   * of a run that starts at slot idx uses slot (idx + k) mod BUFFER_NUMBER, so
   * from the initial index 0 the slots are 0, 1, 2, 3, 0, ...
   */
  lemma {:induction false} SlotsUsedCyclic(idx: nat, outcomes: seq<bool>, k: nat)
    requires idx < BUFFER_NUMBER && k < Accepted(outcomes)
    ensures SlotsUsed(idx, outcomes)[k] == (idx + k) % BUFFER_NUMBER
    decreases |outcomes|
  {
    var next := Advance(idx, outcomes[0]);
    var tail := SlotsUsed(next, outcomes[1..]);
    if outcomes[0] {
      if k > 0 {
        SlotsUsedCyclic(next, outcomes[1..], k - 1);
        assert tail[k - 1] == (next + (k - 1)) % BUFFER_NUMBER;
        ModAddAssoc(idx + 1, k - 1);
      }
    } else {
      SlotsUsedCyclic(next, outcomes[1..], k);
    }
  }

  /** One more attempted transfer at the end of a run: the index advances from where the run left it. */
  lemma {:induction false} IndexAfterSnoc(idx: nat, outcomes: seq<bool>, accepted: bool)
    requires idx < BUFFER_NUMBER
    ensures IndexAfter(idx, outcomes + [accepted]) == Advance(IndexAfter(idx, outcomes), accepted)
    decreases |outcomes|
  {
    if outcomes == [] {
      assert outcomes + [accepted] == [accepted];
    } else {
      assert (outcomes + [accepted])[0] == outcomes[0];
      assert (outcomes + [accepted])[1..] == outcomes[1..] + [accepted];
      IndexAfterSnoc(Advance(idx, outcomes[0]), outcomes[1..], accepted);
    }
  }

  /** One more attempted transfer at the end of a run uses the slot the run left the index at, if accepted. */
  lemma {:induction false} SlotsUsedSnoc(idx: nat, outcomes: seq<bool>, accepted: bool)
    requires idx < BUFFER_NUMBER
    ensures SlotsUsed(idx, outcomes + [accepted])
         == SlotsUsed(idx, outcomes) + (if accepted then [IndexAfter(idx, outcomes)] else [])
    decreases |outcomes|
  {
    if outcomes == [] {
      assert outcomes + [accepted] == [accepted];
      assert [accepted][1..] == [];
    } else {
      var next := Advance(idx, outcomes[0]);
      assert (outcomes + [accepted])[0] == outcomes[0];
      assert (outcomes + [accepted])[1..] == outcomes[1..] + [accepted];
      SlotsUsedSnoc(next, outcomes[1..], accepted);
      var head: seq<nat> := if outcomes[0] then [idx] else [];
      var last: seq<nat> := if accepted then [IndexAfter(next, outcomes[1..])] else [];
      assert head + (SlotsUsed(next, outcomes[1..]) + last) == (head + SlotsUsed(next, outcomes[1..])) + last;
    }
  }

  /**
   * pdmSdmallback: s_bufferValidBlock-- on a uint32, whatever the status.
   * Below 0 it wraps to UINT32_MAX; nothing in the code prevents that.
   */
  function CaptureComplete(validBlock: uint32): (r: uint32)
    ensures validBlock > 0 ==> r as int == validBlock as int - 1
    ensures validBlock == 0 ==> r as int == UINT32_MAX
  {
    ((validBlock as int - 1) % UINT32_MODULUS) as uint32
  }

  /**
   * saiCallback: s_bufferValidBlock++ on a uint32 unless the status is
   * kStatus_SAI_TxError, which leaves it unchanged.
   */
  function PlaybackComplete(validBlock: uint32, status: Status): (r: uint32)
    ensures status == SaiTxError ==> r == validBlock
    ensures status != SaiTxError && validBlock as int < UINT32_MAX ==> r as int == validBlock as int + 1
    ensures status != SaiTxError && validBlock as int == UINT32_MAX ==> r == 0
  {
    if status == SaiTxError then validBlock
    else ((validBlock as int + 1) % UINT32_MODULUS) as uint32
  }

  /** A capture completion followed by a successful playback completion restores the count, and so does the reverse order. */
  lemma CaptureThenPlaybackRestores(validBlock: uint32, status: Status)
    requires status != SaiTxError
    ensures PlaybackComplete(CaptureComplete(validBlock), status) == validBlock
    ensures CaptureComplete(PlaybackComplete(validBlock, status)) == validBlock
  {
  }
}
