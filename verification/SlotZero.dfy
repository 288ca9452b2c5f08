/** Slot zero and the division of the slots between the two sides (src/vchiq/shared/slotzero.rs). */
module SlotZero {
  import opened Config
  import opened SlotMessage
  import opened Slots
  import opened Transport
  import RT = RoundTrip

  /** The first slot behind slot zero, which has `size` bytes. */
  function FirstDataSlot(size: nat): nat {
    (size + SLOT_SIZE - 1) / SLOT_SIZE
  }

  /** The parts the slots are divided into. */
  datatype Part = RemoteSync | RemoteData | LocalSync | LocalData

  /** SharedState, as far as the transport uses it; `slotQueue` is copied out and back in as a whole. */
  class SharedState {
    var initialized: nat
    var slotFirst: nat
    var slotLast: nat
    var slotSync: nat
    var txPos: nat
    var slotQueue: SlotQueue

    constructor (queue: SlotQueue)
      ensures slotQueue == queue
    {
      initialized, slotFirst, slotLast, slotSync, txPos := 0, 0, 0, 0, 0;
      slotQueue := queue;
    }
  }

  /** The slot fields of both sides. */
  datatype Division = Division(
    remoteSync: nat, remoteFirst: nat, remoteLast: nat, localSync: nat, localFirst: nat, localLast: nat)

  /** Slot `s` belongs to part `p`. */
  predicate Within(d: Division, s: nat, p: Part) {
    match p
    case RemoteSync => s == d.remoteSync
    case RemoteData => d.remoteFirst <= s <= d.remoteLast
    case LocalSync => s == d.localSync
    case LocalData => d.localFirst <= s <= d.localLast
  }

  predicate Belongs(d: Division, s: nat) {
    exists p :: Within(d, s, p)
  }

  /** The `n` slots from `first` on, and no others, belong to exactly one part, and both sides have data slots. */
  ghost predicate Partitions(d: Division, first: nat, n: nat) {
    && (forall s: nat :: Belongs(d, s) <==> first <= s < first + n)
    && (forall s: nat, p, q :: Within(d, s, p) && Within(d, s, q) ==> p == q)
    && Within(d, d.remoteFirst, RemoteData) && Within(d, d.localFirst, LocalData)
  }

  lemma HalvesPartition(first: nat, n: nat)
    requires n >= 4
    ensures Partitions(Division(first, first + 1, first + n / 2 - 1, first + n / 2, first + n / 2 + 1, first + n - 1),
                       first, n)
  {
    var d := Division(first, first + 1, first + n / 2 - 1, first + n / 2, first + n / 2 + 1, first + n - 1);
    forall s: nat ensures Belongs(d, s) <==> first <= s < first + n {
      if first <= s < first + n {
        var p := if s == first then RemoteSync else if s < first + n / 2 then RemoteData
                 else if s == first + n / 2 then LocalSync else LocalData;
        assert Within(d, s, p);
      }
    }
  }

  class SlotZeroAccessor {
    const totalMemory: nat
    const size: nat                 // byte size of slot zero itself
    const local: SharedState
    const remote: SharedState
    var version: nat
    var versionMin: nat
    var slotZeroSize: nat
    var slotSize: nat
    var maxSlots: nat
    var maxSlotsPerSide: nat

    function TheDivision(): Division
      reads local, remote
    {
      Division(remote.slotSync, remote.slotFirst, remote.slotLast, local.slotSync, local.slotFirst, local.slotLast)
    }

    constructor (totalMemory: nat, size: nat, local: SharedState, remote: SharedState)
      requires local != remote
      ensures this.totalMemory == totalMemory && this.size == size && this.local == local && this.remote == remote
    {
      this.totalMemory, this.size, this.local, this.remote := totalMemory, size, local, remote;
      version, versionMin, slotZeroSize, slotSize, maxSlots, maxSlotsPerSide := 0, 0, 0, 0, 0, 0;
    }

    /** The slots from `first` to `last` in a copy of the slot queue; None for an index out of its range. */
    method FillQueue(queue: SlotQueue, first: nat, last: nat) returns (r: Option<SlotQueue>)
      requires 0 < first <= last
      ensures r.Some? <==> last - first + 1 <= SLOT_QUEUE_LEN
      ensures r.Some? ==>
                && Lists(r.value, first, last)
                && forall k | last - first + 1 <= k < SLOT_QUEUE_LEN :: r.value[k] == queue[k]
    {
      var slotQueue := queue;
      var available := last - first + 1;
      for i := 0 to available
        invariant i <= SLOT_QUEUE_LEN
        invariant forall k | 0 <= k < SLOT_QUEUE_LEN :: slotQueue[k] == if k < i then first + k else queue[k]
      {
        if i >= SLOT_QUEUE_LEN {
          return None;
        }
        slotQueue := slotQueue[i := i + first];
      }
      return Some(slotQueue);
    }

    /**
     * Returns the number of slots. None stands for a memory of fewer than four slots, and for the index out of
     * range when the slot queue is filled; no code checks the latter beforehand.
     */
    method Initialize() returns (r: Option<nat>)
      requires local != remote
      modifies this, local, remote
      ensures var first, n := FirstDataSlot(size), totalMemory / SLOT_SIZE - FirstDataSlot(size);
              && (r.Some? <==> 4 <= n <= 130)
              && (r.Some? ==>
                    && r.value == n && Partitions(TheDivision(), first, n)
                    && remote.slotLast - remote.slotSync + 1 == n / 2
                    && Lists(local.slotQueue, local.slotFirst, local.slotLast)
                    && (forall k | n - n / 2 - 1 <= k < SLOT_QUEUE_LEN ::
                          local.slotQueue[k] == old(local.slotQueue[k]))
                    && local.txPos == 0 && local.initialized == 1
                    && version == 8 && versionMin == 3 && slotZeroSize == size && slotSize == SLOT_SIZE
                    && maxSlots == 128 && maxSlotsPerSide == SLOT_QUEUE_LEN)
      ensures remote.txPos == old(remote.txPos) && remote.slotQueue == old(remote.slotQueue)
      ensures remote.initialized == old(remote.initialized)
    {
      var firstDataSlot := FirstDataSlot(size);
      if totalMemory / SLOT_SIZE < firstDataSlot + 4 {
        return None;
      }
      var numSlots := totalMemory / SLOT_SIZE - firstDataSlot;
      version, versionMin := 8, 3;
      slotZeroSize, slotSize, maxSlots, maxSlotsPerSide := size, SLOT_SIZE, 128, SLOT_QUEUE_LEN;

      remote.slotSync := firstDataSlot;
      remote.slotFirst := firstDataSlot + 1;
      remote.slotLast := firstDataSlot + numSlots / 2 - 1;

      local.slotSync := firstDataSlot + numSlots / 2;
      local.slotFirst := firstDataSlot + numSlots / 2 + 1;
      local.slotLast := firstDataSlot + numSlots - 1;
      local.txPos := 0;

      var slotQueue := FillQueue(local.slotQueue, local.slotFirst, local.slotLast);
      if slotQueue.None? {
        return None;
      }
      local.slotQueue := slotQueue.value;
      local.initialized := 1;
      HalvesPartition(firstDataSlot, numSlots);
      return Some(numSlots);
    }
  }

  // ----- what the division gives the transport -----

  /** The live part of the queue lists the slots from `first` to `last`. */
  predicate Lists(queue: SlotQueue, first: nat, last: nat) {
    && 0 < first <= last && last - first + 1 <= SLOT_QUEUE_LEN
    && forall i | 0 <= i < last - first + 1 :: queue[i] == first + i
  }

  function NewSide(mem: Memory, queue: SlotQueue, first: nat, last: nat): Side
    requires first <= last
  {
    Side(mem, queue, last - first + 1, 0, None, 0)
  }

  /** The initialised slots are a transport with nothing written. */
  lemma InitializedIsReady(mem: Memory, queue: SlotQueue, first: nat, last: nat, writer: Variant, lookup: Variant)
    requires IsMemory(mem) && Lists(queue, first, last) && last < |mem|
    ensures WriterOk(NewSide(mem, queue, first, last))
    ensures RT.Fresh(RT.Channel(writer, lookup, NewSide(mem, queue, first, last), Reader(0, None), []))
  {
  }

  predicate SameOutside(a: Memory, b: Memory, first: nat, last: nat) {
    |a| == |b| && forall i | 0 <= i < |a| && !(first <= i <= last) :: b[i] == a[i]
  }

  lemma StoreStaysInside(mem: Memory, at: SlotPosition, id: u32, size: u32, data: seq<byte>, first: nat, last: nat)
    requires IsMemory(mem) && 0 < at.index < |mem| && at.offset + HEADER_SIZE + |data| <= SLOT_SIZE
    requires first <= at.index <= last
    ensures SameOutside(mem, StoreMessage(mem, at, id, size, data), first, last)
  {
  }

  lemma PaddingStaysInside(v: Variant, s: Side, first: nat, last: nat)
    requires WriterOk(s) && s.localTxPos % SLOT_SIZE != 0
    requires Lists(s.queue, first, last) && s.avail == last - first + 1
    ensures SameOutside(s.mem, StorePadding(v, s).mem, first, last)
  {
    LastSlotIsOwn(s.localTxPos, s.avail);
    OffsetIsAligned(s.localTxPos);
    hide QueueOk;
    assert IsMemory(s.mem) && 0 < s.txData.value.index < |s.mem| by {
      InOwnSlots(s);
    }
    hide StoreMessage;
    StoreStaysInside(s.mem, PaddingPosition(v, s), 0, SpaceLeft(s.localTxPos) - HEADER_SIZE, [], first, last);
  }

  lemma InOwnSlots(s: Side)
    requires WriterOk(s) && s.txData.Some?
    ensures IsMemory(s.mem) && 0 < s.txData.value.index < |s.mem|
  {
    LastSlotIsOwn(s.localTxPos, s.avail);
  }

  /** One message: the writer leaves every slot but its own alone, wherever its padding goes. */
  lemma QueueStaysInOwnSlots(v: Variant, s: Side, m: Msg, first: nat, last: nat)
    requires WriterOk(s) && Stride(m) <= SLOT_SIZE && Queue(v, s, m).Some?
    requires Lists(s.queue, first, last) && s.avail == last - first + 1
    ensures var s1 := Queue(v, s, m).value;
            s1.queue == s.queue && s1.avail == s.avail && SameOutside(s.mem, s1.mem, first, last)
  {
    hide Queue;
    hide StoreMessage;
    hide StorePadding;
    hide StartPos;
    var pos := StartPos(s.localTxPos, Stride(m));
    QueueEffect(v, s, m);
    StartPosFits(s.localTxPos, Stride(m), s.avail);
    var mem := MemoryPadded(v, s, Stride(m));
    if pos != s.localTxPos {
      PaddingStaysInside(v, s, first, last);
    }
    assert SameOutside(s.mem, mem, first, last);
    hide MemoryPadded;
    hide WriterOk;
    assert PositionOf(s.queue, pos).index == first + pos / SLOT_SIZE;
    StoreStaysInside(mem, PositionOf(s.queue, pos), m.id, |m.data|, m.data, first, last);
  }

  lemma LastSlotIsOwn(pos: nat, avail: nat)
    requires 0 < pos <= avail * SLOT_SIZE
    ensures 0 <= (pos - 1) / SLOT_SIZE < avail
  {
  }

  /**
   * In every run, whichever way padding is placed, the writer only ever changes slots of its own range: those of
   * the other side, the synchronous ones and slot zero keep every byte.
   */
  lemma {:induction false} WriterStaysInOwnSlots(c: RT.Channel, ops: seq<RT.Op>, first: nat, last: nat)
    requires WriterOk(c.side) && (forall op | op in ops :: RT.Fits(op)) && RT.Run(c, ops).Some?
    requires Lists(c.side.queue, first, last) && c.side.avail == last - first + 1
    ensures SameOutside(c.side.mem, RT.Run(c, ops).value.side.mem, first, last)
    decreases |ops|
  {
    hide Queue;
    hide Parse;
    hide WriterOk;
    if ops != [] {
      if ops[0].Write? {
        assert RT.Fits(ops[0]);
        QueueStaysInOwnSlots(c.writer, c.side, ops[0].m, first, last);
      }
      WriterStaysInOwnSlots(RT.Step(c, ops[0]).value, ops[1..], first, last);
    }
  }

  /** Both memories hold the same in every slot the queue names. */
  predicate SameFor(a: Memory, b: Memory, queue: SlotQueue) {
    |a| == |b| && forall i | 0 <= i < SLOT_QUEUE_LEN && queue[i] < |a| :: b[queue[i]] == a[queue[i]]
  }

  lemma SameTurn(v: Variant, a: Memory, b: Memory, queue: SlotQueue, r: Reader, txPos: nat)
    requires SameFor(a, b, queue) && (r.rxData.Some? ==> r.rxData.value.index in queue)
    ensures ParseOne(v, b, queue, r, txPos) == ParseOne(v, a, queue, r, txPos)
    ensures var t := ParseOne(v, a, queue, r, txPos);
            t.Some? && t.value.0.rxData.Some? ==> t.value.0.rxData.value.index in queue
  {
    hide Stride;
    hide MessageAt;
    var at := if r.rxData.None? then FreshSlot(v, queue, r.rxPos, txPos) else r.rxData.value;
    assert at.index in queue;
  }

  /** The reader depends only on the slots its queue names. */
  lemma {:induction false} ReaderSeesOwnSlotsOnly(v: Variant, a: Memory, b: Memory, queue: SlotQueue, r: Reader,
                                                  txPos: nat)
    requires SameFor(a, b, queue) && (r.rxData.Some? ==> r.rxData.value.index in queue)
    ensures Parse(v, b, queue, r, txPos) == Parse(v, a, queue, r, txPos)
    decreases if r.rxPos <= txPos then txPos - r.rxPos else 0
  {
    if r.rxPos < txPos {
      SameTurn(v, a, b, queue, r, txPos);
      ParseAdvances(v, a, queue, r, txPos);
      hide ParseOne;
      hide SameFor;
      var t := ParseOne(v, a, queue, r, txPos);
      if t.Some? {
        ReaderSeesOwnSlotsOnly(v, a, b, queue, t.value.0, txPos);
      }
    }
  }

  lemma ParseAdvances(v: Variant, mem: Memory, queue: SlotQueue, r: Reader, txPos: nat)
    ensures var t := ParseOne(v, mem, queue, r, txPos); t.Some? ==> t.value.0.rxPos > r.rxPos
  {
    hide MessageAt;
  }

  /**
   * The two directions do not disturb each other: whatever one side writes into its own slots, the reader of the
   * other side's slots finds what it would have found without.
   */
  lemma DirectionsAreSeparate(c: RT.Channel, ops: seq<RT.Op>, first: nat, last: nat,
                              v: Variant, queue: SlotQueue, r: Reader, txPos: nat)
    requires WriterOk(c.side) && (forall op | op in ops :: RT.Fits(op)) && RT.Run(c, ops).Some?
    requires Lists(c.side.queue, first, last) && c.side.avail == last - first + 1
    requires forall i | 0 <= i < SLOT_QUEUE_LEN :: !(first <= queue[i] <= last)
    requires r.rxData.Some? ==> r.rxData.value.index in queue
    ensures Parse(v, RT.Run(c, ops).value.side.mem, queue, r, txPos)
            == Parse(v, c.side.mem, queue, r, txPos)
  {
    WriterStaysInOwnSlots(c, ops, first, last);
    ReaderSeesOwnSlotsOnly(v, c.side.mem, RT.Run(c, ops).value.side.mem, queue, r, txPos);
  }
}
