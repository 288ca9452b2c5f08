/**
 * One direction of the slot transport: the writer is `reserve_space` and the store-and-publish half of
 * `queue_message` (src/vchiq/state.rs), the reader is the parse loop of `slot_handler` (src/vchiq/slothandler.rs).
 */
module Transport {
  import opened Config
  import opened SlotMessage
  import opened Slots

  /**
   * In two places the code and the comments on its fields disagree: where padding is stored, and which position
   * selects a fresh slot for the reader. Both readings are modelled.
   */
  datatype Variant = AsWritten | AsDocumented

  /** slot_queue: the physical slot for every position index, used circularly. */
  type SlotQueue = q: seq<nat> | |q| == SLOT_QUEUE_LEN witness seq(SLOT_QUEUE_LEN, _ => 0)

  /** The shared state of the writing side. */
  datatype Side = Side(
    mem: Memory,
    queue: SlotQueue,
    avail: nat,                    // slot_queue_available
    localTxPos: nat,
    txData: Option<SlotPosition>,
    txPos: nat)                    // the position published to the reader

  /** The reader's own state. */
  datatype Reader = Reader(rxPos: nat, rxData: Option<SlotPosition>)

  /** The slot queue names `avail` different slots of the memory, none of them slot zero. */
  predicate QueueOk(mem: Memory, queue: SlotQueue, avail: nat) {
    && IsMemory(mem)
    && 1 <= avail <= SLOT_QUEUE_LEN
    && (forall i | 0 <= i < avail :: 0 < queue[i] < |mem|)
    && (forall i, j | 0 <= i < j < avail :: queue[i] != queue[j])
  }

  /** What holds between two calls of the writer, in either variant. */
  predicate WriterOk(s: Side) {
    && QueueOk(s.mem, s.queue, s.avail)
    && s.localTxPos % 8 == 0 && s.localTxPos <= s.avail * SLOT_SIZE
    && s.txPos == s.localTxPos
    && (s.txData.None? <==> s.localTxPos == 0)
    && (s.txData.Some? ==> InLastSlot(s.queue, s.localTxPos, s.txData.value))
  }

  /** `at` lies in the slot that holds the byte before `pos`, below `pos`. */
  predicate InLastSlot(queue: SlotQueue, pos: nat, at: SlotPosition) {
    && 0 < pos <= SLOT_QUEUE_LEN * SLOT_SIZE
    && at.index == queue[(pos - 1) / SLOT_SIZE]
    && at.offset % 8 == 0
    && at.offset < pos - (pos - 1) / SLOT_SIZE * SLOT_SIZE
  }

  function SpaceLeft(pos: nat): nat {
    SLOT_SIZE - pos % SLOT_SIZE
  }

  /** Where a message needing `need` bytes starts when the writer stands at `pos`. */
  function StartPos(pos: nat, need: nat): nat {
    if need > SpaceLeft(pos) then pos + SpaceLeft(pos) else pos
  }

  function PaddingPosition(v: Variant, s: Side): SlotPosition
    requires s.txData.Some?
  {
    if v.AsWritten? then s.txData.value else s.txData.value.(offset := s.localTxPos % SLOT_SIZE)
  }

  function StorePadding(v: Variant, s: Side): (r: Side)
    requires WriterOk(s) && s.txData.Some? && s.localTxPos % SLOT_SIZE != 0
  {
    s.(mem := StoreMessage(s.mem, PaddingPosition(v, s), 0, SpaceLeft(s.localTxPos) - HEADER_SIZE, []))
  }

  /**
   * reserve_space. None stands for its panics: the assertion that the side's own slots are not used up, and the
   * two places that expect `tx_data` to be present.
   */
  function Reserve(v: Variant, s: Side, need: nat): Option<(Side, SlotPosition)>
    requires WriterOk(s) && HEADER_SIZE <= need <= SLOT_SIZE
  {
    if need > SpaceLeft(s.localTxPos) && s.txData.None? then None
    else
      var s1 := if need > SpaceLeft(s.localTxPos) then StorePadding(v, s) else s;
      var pos := StartPos(s.localTxPos, need);
      if pos % SLOT_SIZE == 0 && pos == s.avail * SLOT_SIZE then None
      else if pos % SLOT_SIZE != 0 && s.txData.None? then None
      else
        var at := if pos % SLOT_SIZE == 0
                  then SlotPosition(s.queue[pos / SLOT_SIZE % SLOT_QUEUE_LEN], 0)
                  else SlotPosition(s.txData.value.index, pos % SLOT_SIZE);
        Some((s1.(localTxPos := pos + need, txData := Some(at)), at))
  }

  /** Reserve, store and publish one message. */
  function Queue(v: Variant, s: Side, m: Msg): Option<Side>
    requires WriterOk(s) && Stride(m) <= SLOT_SIZE
  {
    ReserveKeepsWriterOk(v, s, Stride(m));
    match Reserve(v, s, Stride(m))
    case None => None
    case Some((s1, at)) =>
      Some(s1.(mem := StoreMessage(s1.mem, at, m.id, |m.data|, m.data), txPos := s1.localTxPos))
  }

  /** Position of the slot the writer is in, or the next one exactly at a boundary. */
  function PositionOf(queue: SlotQueue, pos: nat): SlotPosition
  {
    SlotPosition(queue[pos / SLOT_SIZE % SLOT_QUEUE_LEN], pos % SLOT_SIZE)
  }

  /** A reservation starts in the current slot or at the next boundary, and never crosses a slot. */
  lemma StartPosFits(pos: nat, need: nat, avail: nat)
    requires pos % 8 == 0 && pos <= avail * SLOT_SIZE && HEADER_SIZE <= need <= SLOT_SIZE
    ensures var p := StartPos(pos, need);
            && pos <= p && p % 8 == 0 && p % SLOT_SIZE + need <= SLOT_SIZE
            && (p % SLOT_SIZE != 0 ==> p == pos && p / SLOT_SIZE == (pos - 1) / SLOT_SIZE)
            && (p != avail * SLOT_SIZE ==> p / SLOT_SIZE < avail)
            && (p + need - 1) / SLOT_SIZE == p / SLOT_SIZE
            && (p != avail * SLOT_SIZE ==> p + need <= avail * SLOT_SIZE)
            && (p != pos ==> pos % SLOT_SIZE != 0 && pos / SLOT_SIZE == (pos - 1) / SLOT_SIZE)
  {
    var q, r := pos / SLOT_SIZE, pos % SLOT_SIZE;
    assert pos == q * SLOT_SIZE + r;
    OffsetIsAligned(pos);
    var p := StartPos(pos, need);
    if need > SLOT_SIZE - r {
      DivMod(q + 1, 0, p);
      DivMod(q + 1, need - 1, p + need - 1);
    } else {
      DivMod(q, r + need - 1, p + need - 1);
    }
    if r != 0 {
      DivMod(q, r - 1, pos - 1);
    }
  }

  /** Quotient and remainder of a position are determined by any slot and offset that add up to it. */
  lemma DivMod(q: nat, r: nat, n: nat)
    requires n == q * SLOT_SIZE + r && r < SLOT_SIZE
    ensures n / SLOT_SIZE == q && n % SLOT_SIZE == r
  {
  }

  lemma OffsetIsAligned(pos: nat)
    requires pos % 8 == 0
    ensures pos % SLOT_SIZE % 8 == 0 && SpaceLeft(pos) % 8 == 0 && HEADER_SIZE <= SpaceLeft(pos)
    ensures (pos + SpaceLeft(pos)) % 8 == 0
  {
    var k := pos / 8 - 512 * (pos / SLOT_SIZE);
    assert pos % SLOT_SIZE == 8 * k;
    TimesEight(k);
    TimesEight(512 - k);
    TimesEight(512 * (pos / SLOT_SIZE + 1));
  }

  lemma TimesEight(k: int)
    ensures 8 * k % 8 == 0
  {
  }

  // ----- the reader -----

  /** Where the reader looks when it has no slot in hand. */
  function FreshSlot(v: Variant, queue: SlotQueue, rxPos: nat, txPos: nat): SlotPosition {
    SlotPosition(queue[(if v.AsWritten? then txPos else rxPos) / SLOT_SIZE % SLOT_QUEUE_LEN], 0)
  }

  /** One turn of the parse loop; None when the message cannot be read. */
  function ParseOne(v: Variant, mem: Memory, queue: SlotQueue, r: Reader, txPos: nat): Option<(Reader, Msg)> {
    var at := if r.rxData.None? then FreshSlot(v, queue, r.rxPos, txPos) else r.rxData.value;
    match ReadMessage(mem, at)
    case None => None
    case Some(m) =>
      var rxPos := r.rxPos + Stride(m);
      var rxData := if rxPos % SLOT_SIZE == 0 then None else Some(SlotPosition(at.index, at.offset + Stride(m)));
      Some((Reader(rxPos, rxData), m))
  }

  /**
   * The parse loop up to the position `txPos` read at its start. The loop tests `!=`: once past `txPos` it would
   * never end, which is None here.
   */
  function Parse(v: Variant, mem: Memory, queue: SlotQueue, r: Reader, txPos: nat): Option<(Reader, seq<Msg>)>
    decreases if r.rxPos <= txPos then txPos - r.rxPos else 0
  {
    if r.rxPos == txPos then Some((r, []))
    else if r.rxPos > txPos then None
    else
      match ParseOne(v, mem, queue, r, txPos)
      case None => None
      case Some((r1, m)) =>
        match Parse(v, mem, queue, r1, txPos)
        case None => None
        case Some((r2, ms)) => Some((r2, [m] + ms))
  }

  /** The reader at `pos`: the slot and offset of `pos`, or no slot exactly at a boundary. */
  function ReaderAt(queue: SlotQueue, pos: nat): (r: Reader)
    ensures r.rxPos == pos
  {
    Reader(pos, if pos % SLOT_SIZE == 0 then None else Some(PositionOf(queue, pos)))
  }

  lemma PaddingKeepsQueueOk(v: Variant, s: Side)
    requires WriterOk(s) && s.localTxPos % SLOT_SIZE != 0
    ensures var s1 := StorePadding(v, s);
            s1 == s.(mem := s1.mem) && QueueOk(s1.mem, s.queue, s.avail) && |s1.mem| == |s.mem|
  {
  }

  lemma ReserveKeepsWriterOk(v: Variant, s: Side, need: nat)
    requires WriterOk(s) && HEADER_SIZE <= need <= SLOT_SIZE
    ensures Reserve(v, s, need).None? <==> StartPos(s.localTxPos, need) == s.avail * SLOT_SIZE
    ensures Reserve(v, s, need).Some? ==>
              var (s1, at) := Reserve(v, s, need).value;
              var pos := StartPos(s.localTxPos, need);
              && at == PositionOf(s.queue, pos)
              && 0 < at.index < |s.mem|
              && at.offset + need <= SLOT_SIZE
              && pos / SLOT_SIZE < s.avail
              && s1 == (if pos != s.localTxPos then StorePadding(v, s) else s).(localTxPos := pos + need,
                                                                                txData := Some(at))
              && QueueOk(s1.mem, s1.queue, s1.avail)
              && |s1.mem| == |s.mem|
  {
    StartPosFits(s.localTxPos, need, s.avail);
    if need > SpaceLeft(s.localTxPos) {
      PaddingKeepsQueueOk(v, s);
    }
  }

  lemma StoreKeepsQueueOk(mem: Memory, queue: SlotQueue, avail: nat, at: SlotPosition, id: u32, size: u32,
                          data: seq<byte>)
    requires QueueOk(mem, queue, avail) && 0 < at.index < |mem|
    requires at.offset + HEADER_SIZE + |data| <= SLOT_SIZE
    ensures QueueOk(StoreMessage(mem, at, id, size, data), queue, avail)
  {
  }

  /** Slot memory once a reservation of `need` bytes has stored its padding, if it needs one. */
  function MemoryPadded(v: Variant, s: Side, need: nat): (mem: Memory)
    requires WriterOk(s) && HEADER_SIZE <= need <= SLOT_SIZE
  {
    if StartPos(s.localTxPos, need) == s.localTxPos then s.mem
    else
      StartPosFits(s.localTxPos, need, s.avail);
      StorePadding(v, s).mem
  }

  /** The whole effect of a queued message: it fails only when the side's own slots are used up. */
  lemma QueueEffect(v: Variant, s: Side, m: Msg)
    requires WriterOk(s) && Stride(m) <= SLOT_SIZE
    ensures var pos := StartPos(s.localTxPos, Stride(m));
            && (Queue(v, s, m).None? <==> pos == s.avail * SLOT_SIZE)
            && (Queue(v, s, m).Some? ==>
                  var mem := MemoryPadded(v, s, Stride(m));
                  var at := PositionOf(s.queue, pos);
                  && QueueOk(mem, s.queue, s.avail) && |mem| == |s.mem|
                  && 0 < at.index < |mem| && at.offset + Stride(m) <= SLOT_SIZE
                  && pos / SLOT_SIZE < s.avail
                  && Queue(v, s, m).value == Side(StoreMessage(mem, at, m.id, |m.data|, m.data), s.queue, s.avail,
                                                  pos + Stride(m), Some(at), pos + Stride(m)))
  {
    ReserveKeepsWriterOk(v, s, Stride(m));
  }

  lemma QueueKeepsWriterOk(v: Variant, s: Side, m: Msg)
    requires WriterOk(s) && Stride(m) <= SLOT_SIZE && Queue(v, s, m).Some?
    ensures WriterOk(Queue(v, s, m).value) && 0 < Queue(v, s, m).value.localTxPos
  {
    hide Queue;
    hide MemoryPadded;
    hide StoreMessage;
    QueueEffect(v, s, m);
    var pos := StartPos(s.localTxPos, Stride(m));
    StartPosFits(s.localTxPos, Stride(m), s.avail);
    StoreKeepsQueueOk(MemoryPadded(v, s, Stride(m)), s.queue, s.avail, PositionOf(s.queue, pos), m.id, |m.data|,
                      m.data);
    EndOfReservation(s.queue, pos, Stride(m), s.avail);
  }

  lemma EndOfReservation(queue: SlotQueue, pos: nat, need: nat, avail: nat)
    requires pos % 8 == 0 && need % 8 == 0 && 0 < need && pos % SLOT_SIZE + need <= SLOT_SIZE
    requires pos / SLOT_SIZE < avail <= SLOT_QUEUE_LEN
    ensures (pos + need) % 8 == 0 && pos + need <= avail * SLOT_SIZE
    ensures InLastSlot(queue, pos + need, PositionOf(queue, pos))
  {
    var q, r := pos / SLOT_SIZE, pos % SLOT_SIZE;
    DivMod(q, r + need - 1, pos + need - 1);
    OffsetIsAligned(pos);
  }

  // ----- the stream of frames -----

  /** What can be read at every position of a stream. */
  type Stream = nat -> Option<Msg>

  function Frames(mem: Memory, queue: SlotQueue): Stream {
    (pos: nat) => ReadMessage(mem, PositionOf(queue, pos))
  }

  predicate FitsSlot(pos: nat, m: Msg) {
    pos % SLOT_SIZE + Stride(m) <= SLOT_SIZE
  }

  /** The stream from `from` to `to` is cut exactly into the frames `fs`, none of which crosses a slot. */
  predicate Tiles(read: Stream, from: nat, to: nat, fs: seq<Msg>)
    decreases |fs|
  {
    if fs == [] then from == to
    else
      && read(from) == Some(fs[0])
      && FitsSlot(from, fs[0])
      && Tiles(read, from + Stride(fs[0]), to, fs[1..])
  }

  lemma {:induction false} TilesOrdered(read: Stream, from: nat, to: nat, fs: seq<Msg>)
    requires Tiles(read, from, to, fs)
    ensures from <= to && (from == to <==> fs == [])
    ensures from % 8 == 0 ==> to % 8 == 0
    decreases |fs|
  {
    if fs != [] {
      TilesOrdered(read, from + Stride(fs[0]), to, fs[1..]);
    }
  }

  lemma {:induction false} TilesAppend(read: Stream, from: nat, mid: nat, to: nat, fs: seq<Msg>, gs: seq<Msg>)
    requires Tiles(read, from, mid, fs) && Tiles(read, mid, to, gs)
    ensures Tiles(read, from, to, fs + gs)
    decreases |fs|
  {
    if fs == [] {
      assert fs + gs == gs;
    } else {
      TilesAppend(read, from + Stride(fs[0]), mid, to, fs[1..], gs);
      assert (fs + gs)[1..] == fs[1..] + gs;
    }
  }

  lemma OneTile(read: Stream, at: nat, m: Msg)
    requires read(at) == Some(m) && FitsSlot(at, m)
    ensures Tiles(read, at, at + Stride(m), [m])
  {
    assert [m][1..] == [];
    assert Tiles(read, at + Stride(m), at + Stride(m), []);
  }

  /** Two streams give the same frames as far as these end at or below `pos`. */
  ghost predicate SameBelow(a: Stream, b: Stream, pos: nat) {
    forall p: nat | a(p).Some? && FitsSlot(p, a(p).value) && p + Stride(a(p).value) <= pos :: b(p) == a(p)
  }

  lemma {:induction false} TilesKept(a: Stream, b: Stream, from: nat, to: nat, pos: nat, fs: seq<Msg>)
    requires SameBelow(a, b, pos) && to <= pos && Tiles(a, from, to, fs)
    ensures Tiles(b, from, to, fs)
    decreases |fs|
  {
    if fs != [] {
      TilesOrdered(a, from + Stride(fs[0]), to, fs[1..]);
      TilesKept(a, b, from + Stride(fs[0]), to, pos, fs[1..]);
    }
  }

  /** Storing at or above `pos` leaves every frame below `pos` alone. */
  lemma StoreKeepsBelow(queue: SlotQueue, avail: nat, mem: Memory, pos: nat, at: nat, id: u32, size: u32,
                        data: seq<byte>)
    requires QueueOk(mem, queue, avail) && pos <= at < avail * SLOT_SIZE
    requires at % SLOT_SIZE + HEADER_SIZE + |data| <= SLOT_SIZE
    ensures SameBelow(Frames(mem, queue), Frames(StoreMessage(mem, PositionOf(queue, at), id, size, data), queue), pos)
  {
    var r := StoreMessage(mem, PositionOf(queue, at), id, size, data);
    var a, b := Frames(mem, queue), Frames(r, queue);
    forall p: nat | a(p).Some? && FitsSlot(p, a(p).value) && p + Stride(a(p).value) <= pos
      ensures b(p) == a(p)
    {
      FrameKept(queue, avail, mem, r, at, p);
    }
  }

  /** One frame below a store at `at`: it lies in another slot, or in the same slot at lower offsets. */
  lemma FrameKept(queue: SlotQueue, avail: nat, a: Memory, b: Memory, at: nat, p: nat)
    requires QueueOk(a, queue, avail) && |a| == |b| && at < avail * SLOT_SIZE
    requires forall i | 0 <= i < |a| && i != PositionOf(queue, at).index :: b[i] == a[i]
    requires var k := PositionOf(queue, at);
             && 0 < k.index < |a| && |b[k.index]| == SLOT_SIZE
             && b[k.index][..k.offset] == a[k.index][..k.offset]
    requires ReadMessage(a, PositionOf(queue, p)).Some?
    requires var m := ReadMessage(a, PositionOf(queue, p)).value; FitsSlot(p, m) && p + Stride(m) <= at
    ensures ReadMessage(b, PositionOf(queue, p)) == ReadMessage(a, PositionOf(queue, p))
  {
    var m := ReadMessage(a, PositionOf(queue, p)).value;
    var i, k := p / SLOT_SIZE, at / SLOT_SIZE;
    SlotsApart(p, at, avail, Stride(m));
    if i == k {
      MessageAtPrefix(a[queue[i]], b[queue[i]], at % SLOT_SIZE, p % SLOT_SIZE);
    } else {
      assert queue[i] != queue[k];
    }
  }

  lemma SlotsApart(p: nat, at: nat, avail: nat, stride: nat)
    requires p + stride <= at < avail * SLOT_SIZE && 0 < stride && avail <= SLOT_QUEUE_LEN
    ensures p / SLOT_SIZE < avail && at / SLOT_SIZE < avail
    ensures p / SLOT_SIZE % SLOT_QUEUE_LEN == p / SLOT_SIZE && at / SLOT_SIZE % SLOT_QUEUE_LEN == at / SLOT_SIZE
    ensures p / SLOT_SIZE <= at / SLOT_SIZE
    ensures p / SLOT_SIZE == at / SLOT_SIZE ==> p % SLOT_SIZE + stride <= at % SLOT_SIZE
  {
  }
}
