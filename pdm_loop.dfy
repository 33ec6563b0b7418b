/**
 * The globals of the PDM-to-SAI demo and the body of main's endless loop,
 * updated in place, with the two DMA completion callbacks. The driver calls
 * PDM_TransferReceiveSDMA and SAI_TransferSendSDMA are not run: their return
 * status is an input, and the window each would be handed is returned.
 */
module PdmLoop {
  import opened CTypes
  import opened PdmRing

  class Demo {
    var validBlock: uint32           // s_bufferValidBlock
    var readIndex: uint32            // s_readIndex
    var writeIndex: uint32           // s_writeIndex
    ghost var rxOutcomes: seq<bool> // outcome of every attempted PDM receive, in order
    ghost var txOutcomes: seq<bool> // outcome of every attempted SAI send, in order
    ghost var rxSlots: seq<nat>      // slot of every accepted PDM receive, in order
    ghost var txSlots: seq<nat>      // slot of every accepted SAI send, in order

    /**
     * Each index is where PdmRing.IndexAfter puts it after the attempts made
     * so far, starting from 0, and the slots used are PdmRing.SlotsUsed of
     * those attempts.
     */
    ghost predicate Valid()
      reads this
    {
      && readIndex as int == IndexAfter(0, rxOutcomes)
      && writeIndex as int == IndexAfter(0, txOutcomes)
      && rxSlots == SlotsUsed(0, rxOutcomes)
      && txSlots == SlotsUsed(0, txOutcomes)
    }

    /** The initialisers of the globals. */
    constructor ()
      ensures Valid()
      ensures validBlock as int == BUFFER_NUMBER && readIndex == 0 && writeIndex == 0
      ensures rxOutcomes == [] && txOutcomes == [] && rxSlots == [] && txSlots == []
    {
      validBlock := BUFFER_NUMBER as uint32;
      readIndex := 0;
      writeIndex := 0;
      rxOutcomes := [];
      txOutcomes := [];
      rxSlots := [];
      txSlots := [];
    }

    /**
     * In a valid state the indices count accepted transfers modulo
     * BUFFER_NUMBER, and the k-th accepted transfer of each kind used slot
     * k mod BUFFER_NUMBER.
     */
    lemma SlotsCyclic()
      requires Valid()
      ensures readIndex as int == Accepted(rxOutcomes) % BUFFER_NUMBER
      ensures writeIndex as int == Accepted(txOutcomes) % BUFFER_NUMBER
      ensures forall k :: 0 <= k < |rxSlots| ==> rxSlots[k] == k % BUFFER_NUMBER
      ensures forall k :: 0 <= k < |txSlots| ==> txSlots[k] == k % BUFFER_NUMBER
    {
      IndexAfterCountsAccepted(0, rxOutcomes);
      IndexAfterCountsAccepted(0, txOutcomes);
      forall k | 0 <= k < |rxSlots|
        ensures rxSlots[k] == k % BUFFER_NUMBER
      {
        SlotsUsedCyclic(0, rxOutcomes, k);
      }
      forall k | 0 <= k < |txSlots|
        ensures txSlots[k] == k % BUFFER_NUMBER
      {
        SlotsUsedCyclic(0, txOutcomes, k);
      }
    }

    /**
     * The receive half of the loop body: if a slot is free, hand the slot at
     * readIndex to the PDM driver, advance on success, wrap at BUFFER_NUMBER.
     */
    method ReceiveStep(rxStatus: Status) returns (xfer: Option<Window>)
      requires Valid()
      modifies this`readIndex, this`rxOutcomes, this`rxSlots
      ensures Valid()
      ensures xfer.Some? <==> validBlock > 0
      ensures xfer.Some? ==> xfer.value == SlotWindow(old(readIndex) as nat)
      ensures readIndex as nat == Advance(old(readIndex) as nat, xfer.Some? && rxStatus == Success)
      ensures rxOutcomes == old(rxOutcomes) + (if xfer.Some? then [rxStatus == Success] else [])
      ensures rxSlots == old(rxSlots) + (if xfer.Some? && rxStatus == Success then [old(readIndex) as nat] else [])
    {
      xfer := None;
      if validBlock > 0 {
        xfer := Some(SlotWindow(readIndex as nat));
        IndexAfterSnoc(0, rxOutcomes, rxStatus == Success);
        SlotsUsedSnoc(0, rxOutcomes, rxStatus == Success);
        rxOutcomes := rxOutcomes + [rxStatus == Success];
        if rxStatus == Success {
          rxSlots := rxSlots + [readIndex as nat];
          readIndex := readIndex + 1;
        }
        if readIndex as int == BUFFER_NUMBER {
          readIndex := 0;
        }
      }
    }

    /**
     * The send half of the loop body: if a slot holds data, hand the slot at
     * writeIndex to the SAI driver, advance on success, wrap at BUFFER_NUMBER.
     */
    method SendStep(txStatus: Status) returns (xfer: Option<Window>)
      requires Valid()
      modifies this`writeIndex, this`txOutcomes, this`txSlots
      ensures Valid()
      ensures xfer.Some? <==> validBlock as int < BUFFER_NUMBER
      ensures xfer.Some? ==> xfer.value == SlotWindow(old(writeIndex) as nat)
      ensures writeIndex as nat == Advance(old(writeIndex) as nat, xfer.Some? && txStatus == Success)
      ensures txOutcomes == old(txOutcomes) + (if xfer.Some? then [txStatus == Success] else [])
      ensures txSlots == old(txSlots) + (if xfer.Some? && txStatus == Success then [old(writeIndex) as nat] else [])
    {
      xfer := None;
      if validBlock as int < BUFFER_NUMBER {
        xfer := Some(SlotWindow(writeIndex as nat));
        IndexAfterSnoc(0, txOutcomes, txStatus == Success);
        SlotsUsedSnoc(0, txOutcomes, txStatus == Success);
        txOutcomes := txOutcomes + [txStatus == Success];
        if txStatus == Success {
          txSlots := txSlots + [writeIndex as nat];
          writeIndex := writeIndex + 1;
        }
        if writeIndex as int == BUFFER_NUMBER {
          writeIndex := 0;
        }
      }
    }

    /** One iteration of main's while (1) loop. */
    method LoopIteration(rxStatus: Status, txStatus: Status) returns (rx: Option<Window>, tx: Option<Window>)
      requires Valid()
      modifies this`readIndex, this`rxOutcomes, this`rxSlots, this`writeIndex, this`txOutcomes, this`txSlots
      ensures Valid()
      ensures readIndex as int < BUFFER_NUMBER && writeIndex as int < BUFFER_NUMBER
      ensures rx.Some? <==> validBlock > 0
      ensures tx.Some? <==> validBlock as int < BUFFER_NUMBER
      ensures rx.Some? ==> rx.value == SlotWindow(old(readIndex) as nat)
      ensures tx.Some? ==> tx.value == SlotWindow(old(writeIndex) as nat)
      ensures readIndex as nat == Advance(old(readIndex) as nat, rx.Some? && rxStatus == Success)
      ensures writeIndex as nat == Advance(old(writeIndex) as nat, tx.Some? && txStatus == Success)
      ensures rxOutcomes == old(rxOutcomes) + (if rx.Some? then [rxStatus == Success] else [])
      ensures txOutcomes == old(txOutcomes) + (if tx.Some? then [txStatus == Success] else [])
      ensures rxSlots == old(rxSlots) + (if rx.Some? && rxStatus == Success then [old(readIndex) as nat] else [])
      ensures txSlots == old(txSlots) + (if tx.Some? && txStatus == Success then [old(writeIndex) as nat] else [])
    {
      rx := ReceiveStep(rxStatus);
      tx := SendStep(txStatus);
    }

    /** pdmSdmallback: a capture into a slot completed. */
    method PdmCallback(status: Status)
      modifies this`validBlock
      ensures validBlock == CaptureComplete(old(validBlock))
    {
      validBlock := if validBlock == 0 then UINT32_MAX as uint32 else validBlock - 1;
    }

    /** saiCallback: playback of a slot completed, or failed with kStatus_SAI_TxError. */
    method SaiCallback(status: Status)
      modifies this`validBlock
      ensures validBlock == PlaybackComplete(old(validBlock), status)
    {
      if status == SaiTxError {
        // the demo's error handler is empty
      } else {
        validBlock := if validBlock as int == UINT32_MAX then 0 else validBlock + 1;
      }
    }
  }
}
