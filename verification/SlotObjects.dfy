/**
 * The slots and the positions in them as the code keeps them, updated in place (src/vchiq/shared/slot.rs, SlotState
 * in src/vchiq/state.rs, the reading half of src/vchiq/slothandler.rs).
 */
module SlotObjects {
  import opened Config
  import opened SlotMessage
  import opened Slots
  import opened Transport

  class SlotAccessor {
    const len: nat
    const data: array2<byte>

    predicate Valid()
    {
      data.Length0 == len && data.Length1 == SLOT_SIZE
    }

    function Slot(i: nat): (r: seq<byte>)
      requires Valid() && i < len
      reads data
      ensures |r| == SLOT_SIZE
    {
      seq(SLOT_SIZE, j requires 0 <= j < SLOT_SIZE && Valid() && i < len reads data => data[i, j])
    }

    function Contents(): (r: Memory)
      requires Valid()
      reads data
      ensures |r| == len && IsMemory(r)
    {
      seq(len, i requires 0 <= i < len && Valid() reads data => Slot(i))
    }

    constructor (len: nat)
      ensures Valid() && fresh(data) && this.len == len
    {
      this.len := len;
      data := new byte[len, SLOT_SIZE];
    }

    /** store_message; `ok` is false where an assertion fails. */
    method StoreMessage(pos: SlotPosition, id: u32, size: u32, payload: seq<byte>) returns (ok: bool)
      requires Valid() && pos.offset + HEADER_SIZE + |payload| <= SLOT_SIZE
      modifies data
      ensures ok <==> 0 < pos.index < len
      ensures Contents() == if ok then Slots.StoreMessage(old(Contents()), pos, id, size, payload) else old(Contents())
    {
      if !(0 < pos.index < len) {
        return false;
      }
      var bytes := Header(id, size) + payload;
      var at := pos.offset % SLOT_SIZE;
      forall j | 0 <= j < |bytes| {
        data[pos.index, at + j] := bytes[j];
      }
      ghost var was, now := old(Contents()), Contents();
      assert now[pos.index] == Splice(was[pos.index], pos.offset, bytes);
      assert forall i | 0 <= i < len && i != pos.index :: now[i] == was[i];
      return true;
    }

    /** read_message. */
    method ReadMessage(pos: SlotPosition) returns (r: Option<Msg>)
      requires Valid()
      ensures r == Slots.ReadMessage(Contents(), pos)
    {
      if !(0 < pos.index < len) {
        return None;
      }
      var slot := Slot(pos.index);
      return MessageAt(slot, pos.offset % SLOT_SIZE);
    }
  }

  /** SlotState, with the fields of slot zero it works on. */
  class SlotState {
    const writer: Variant           // the reading of reserve_space followed
    const lookup: Variant           // the reading of the parse loop followed
    const slotData: SlotAccessor
    const slotQueue: SlotQueue      // of the local side
    const available: nat            // slot_queue_available
    var txPos: nat                  // of the local side, read by the other one
    const remoteSlotQueue: SlotQueue
    var remoteTxPos: nat            // of the remote side, written by the other one
    var txData: Option<SlotPosition>
    var rxData: Option<SlotPosition>
    var localTxPos: nat
    var rxPos: nat

    constructor (writer: Variant, lookup: Variant, slotData: SlotAccessor, slotQueue: SlotQueue, available: nat,
                 remoteSlotQueue: SlotQueue)
      requires slotData.Valid()
      ensures Valid() && this.writer == writer && this.lookup == lookup && this.slotData == slotData
      ensures Out() == Side(slotData.Contents(), slotQueue, available, 0, None, 0)
      ensures In() == Reader(0, None) && this.remoteSlotQueue == remoteSlotQueue
    {
      this.writer, this.lookup := writer, lookup;
      this.slotData, this.slotQueue, this.available := slotData, slotQueue, available;
      this.remoteSlotQueue := remoteSlotQueue;
      txPos, remoteTxPos, txData, rxData, localTxPos, rxPos := 0, 0, None, None, 0, 0;
    }

    predicate Valid()
    {
      slotData.Valid()
    }

    /** The writing side. */
    function Out(): Side
      requires Valid()
      reads this, slotData.data
    {
      Side(slotData.Contents(), slotQueue, available, localTxPos, txData, txPos)
    }

    /** The reading side. */
    function In(): Reader
      reads this
    {
      Reader(rxPos, rxData)
    }

    /** The part of reserve_space that fills the rest of a slot with padding. */
    method Pad(slotSpace: nat)
      requires Valid() && WriterOk(Out()) && txData.Some? && localTxPos % SLOT_SIZE != 0
      requires slotSpace == SpaceLeft(localTxPos)
      modifies slotData.data
      ensures Out() == StorePadding(writer, old(Out()))
    {
      hide Slots.StoreMessage;
      hide QueueOk;
      OffsetIsAligned(localTxPos);
      TxDataInRange(Out());
      var at := if writer.AsWritten? then txData.value else txData.value.(offset := localTxPos % SLOT_SIZE);
      var ok := slotData.StoreMessage(at, 0, slotSpace - HEADER_SIZE, []);
    }

    /** reserve_space; None where it panics. */
    method ReserveSpace(spaceNeeded: nat) returns (r: Option<SlotPosition>)
      requires Valid() && WriterOk(Out()) && HEADER_SIZE <= spaceNeeded <= SLOT_SIZE
      modifies this`txData, this`localTxPos, slotData.data
      ensures match Reserve(writer, old(Out()), spaceNeeded)
              case None => r.None?
              case Some((side, at)) => r == Some(at) && Out() == side
    {
      hide Slots.StoreMessage;
      hide QueueOk;
      var tx := localTxPos;
      var slotSpace := SLOT_SIZE - tx % SLOT_SIZE;
      hide StorePadding;
      ReserveKeepsWriterOk(writer, Out(), spaceNeeded);
      if spaceNeeded > slotSpace {
        if txData.None? {
          return None;
        }
        Pad(slotSpace);
        tx := tx + slotSpace;
      }
      var at: SlotPosition;
      if tx % SLOT_SIZE == 0 {
        if tx == available * SLOT_SIZE {
          return None;
        }
        at := SlotPosition(slotQueue[tx / SLOT_SIZE % SLOT_QUEUE_LEN], 0);
      } else {
        if txData.None? {
          return None;
        }
        at := SlotPosition(txData.value.index, tx % SLOT_SIZE);
      }
      localTxPos := tx + spaceNeeded;
      txData := Some(at);
      return Some(at);
    }

    /** The store-and-publish half of queue_message. */
    method StoreAndPublish(at: SlotPosition, m: Msg)
      requires Valid() && 0 < at.index < slotData.len && at.offset + HEADER_SIZE + |m.data| <= SLOT_SIZE
      modifies this`txPos, slotData.data
      ensures Out() == old(Out()).(mem := Slots.StoreMessage(old(Out()).mem, at, m.id, |m.data|, m.data),
                                   txPos := old(localTxPos))
    {
      var ok := slotData.StoreMessage(at, m.id, |m.data|, m.data);
      txPos := localTxPos;
    }

    /** Reserve, store and publish. */
    method Queue(m: Msg) returns (ok: bool)
      requires Valid() && WriterOk(Out()) && Stride(m) <= SLOT_SIZE
      modifies this`txData, this`localTxPos, this`txPos, slotData.data
      ensures match Transport.Queue(writer, old(Out()), m)
              case None => !ok
              case Some(side) => ok && Out() == side
    {
      ReserveKeepsWriterOk(writer, Out(), Stride(m));
      hide Reserve;
      hide WriterOk;
      var at := ReserveSpace(CalcMsgStride(|m.data|));
      if at.None? {
        return false;
      }
      StoreAndPublish(at.value, m);
      return true;
    }

    /** The reading half of one turn of the parse loop. */
    method ReadNext(txPosSeen: nat) returns (r: Option<Msg>)
      requires Valid()
      modifies this`rxData
      ensures rxData.Some? && In() == old(In()).(rxData := rxData)
      ensures rxData == if old(rxData).Some? then old(rxData)
                        else Some(FreshSlot(lookup, remoteSlotQueue, rxPos, txPosSeen))
      ensures r == Slots.ReadMessage(slotData.Contents(), rxData.value)
    {
      if rxData.None? {
        var slotQueueIndex := (if lookup.AsWritten? then txPosSeen else rxPos) / SLOT_SIZE % SLOT_QUEUE_LEN;
        rxData := Some(SlotPosition(remoteSlotQueue[slotQueueIndex], 0));
      }
      r := slotData.ReadMessage(rxData.value);
    }

    /** The end of one turn: past a message with `size` bytes of payload. */
    method Advance(size: nat)
      requires rxData.Some?
      modifies this`rxData, this`rxPos
      ensures rxPos == old(rxPos) + CalcMsgStride(size)
      ensures rxData == if rxPos % SLOT_SIZE == 0 then None
                        else Some(SlotPosition(old(rxData).value.index, old(rxData).value.offset + CalcMsgStride(size)))
    {
      var at := rxData.value;
      var msgStride := CalcMsgStride(size);
      rxPos := rxPos + msgStride;
      if rxPos % SLOT_SIZE == 0 {
        rxData := None;
      } else {
        rxData := Some(SlotPosition(at.index, at.offset + msgStride));
      }
    }
  }

  lemma TxDataInRange(s: Side)
    requires WriterOk(s) && s.txData.Some?
    ensures 0 < s.txData.value.index < |s.mem|
  {
    assert (s.localTxPos - 1) / SLOT_SIZE < s.avail;
  }
}
