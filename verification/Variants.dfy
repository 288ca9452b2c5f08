/**
 * The two places where the transport's code departs from the comments on its fields: exactly when that matters.
 */
module Variants {
  import opened Config
  import opened SlotMessage
  import opened Slots
  import opened Transport
  import opened RoundTrip

  // ----- where messages go -----

  /** Where each message starts. */
  function Starts(ms: seq<Msg>): (starts: seq<nat>)
    ensures |starts| == |ms|
  {
    if ms == [] then []
    else Starts(ms[..|ms| - 1]) + [StartPos(EndPos(ms[..|ms| - 1]), Stride(ms[|ms| - 1]))]
  }

  /** Some message does not fit the rest of the slot it meets. */
  predicate Pads(ms: seq<Msg>) {
    ms != [] && (Pads(ms[..|ms| - 1]) || Stride(ms[|ms| - 1]) > SpaceLeft(EndPos(ms[..|ms| - 1])))
  }

  predicate Sendable(ms: seq<Msg>) {
    forall m | m in ms :: Stride(m) <= SLOT_SIZE && !IsPadding(m)
  }

  /** All of the above for one message more. */
  lemma OneMore(init: seq<Msg>, m: Msg)
    ensures var pos := StartPos(EndPos(init), Stride(m));
            && EndPos(init + [m]) == pos + Stride(m)
            && Starts(init + [m]) == Starts(init) + [pos]
            && (Pads(init + [m]) <==> Pads(init) || Stride(m) > SpaceLeft(EndPos(init)))
            && (Sendable(init + [m]) <==> Sendable(init) && Stride(m) <= SLOT_SIZE && !IsPadding(m))
  {
    hide IsPadding;
    hide StartPos;
    var ms := init + [m];
    assert ms[..|ms| - 1] == init && ms[|ms| - 1] == m;
    forall x | x in init ensures x in ms {}
    assert m in ms;
    assert forall x :: x in ms <==> x in init || x == m;
  }

  /** Messages lie one after the other. */
  lemma {:induction false} StartsOrdered(ms: seq<Msg>)
    ensures forall k | 0 <= k < |ms| :: Starts(ms)[k] + Stride(ms[k]) <= EndPos(ms)
  {
    hide StartPos;
    if ms != [] {
      var init := ms[..|ms| - 1];
      StartsOrdered(init);
      StartPosIsAbove(EndPos(init), Stride(ms[|ms| - 1]));
    }
  }

  // ----- padding -----

  function QueueAll(v: Variant, s: Side, ms: seq<Msg>): (r: Option<Side>)
    requires WriterOk(s) && Sendable(ms)
    ensures r.Some? ==> WriterOk(r.value) && r.value.queue == s.queue && r.value.avail == s.avail
  {
    if ms == [] then Some(s)
    else
      match QueueAll(v, s, ms[..|ms| - 1])
      case None => None
      case Some(s1) =>
        var m := ms[|ms| - 1];
        QueueEffect(v, s1, m);
        if Queue(v, s1, m).Some? then QueueKeepsWriterOk(v, s1, m); Queue(v, s1, m) else None
  }

  /** Every message of `ms` can be read where it was put. */
  predicate Intact(s: Side, ms: seq<Msg>) {
    forall k | 0 <= k < |ms| :: Frames(s.mem, s.queue)(Starts(ms)[k]) == Some(ms[k])
  }

  /** The frame at `start` reads as padding that ends at or below `end`. */
  predicate Lost(f: Stream, start: nat, end: nat) {
    && f(start).Some? && IsPadding(f(start).value)
    && FitsSlot(start, f(start).value) && start + Stride(f(start).value) <= end
  }

  /** The message just queued reads back, in either variant. */
  lemma QueuedReads(v: Variant, s: Side, m: Msg)
    requires WriterOk(s) && Stride(m) <= SLOT_SIZE && Queue(v, s, m).Some?
    ensures var s' := Queue(v, s, m).value;
            var pos := StartPos(s.localTxPos, Stride(m));
            && Frames(s'.mem, s'.queue)(pos) == Some(m) && FitsSlot(pos, m)
            && s'.txData == Some(PositionOf(s.queue, pos)) && s'.localTxPos == pos + Stride(m)
  {
    hide Queue;
    hide StoreMessage;
    hide MemoryPadded;
    var pos := StartPos(s.localTxPos, Stride(m));
    QueueEffect(v, s, m);
    StartPosFits(s.localTxPos, Stride(m), s.avail);
    StoreMakesFrame(MemoryPadded(v, s, Stride(m)), s.queue, pos, m);
  }

  /** When the documented padding position is used, or none is needed, earlier frames stay. */
  lemma QueueKeepsEarlier(v: Variant, s: Side, m: Msg)
    requires WriterOk(s) && Stride(m) <= SLOT_SIZE && Queue(v, s, m).Some?
    requires PadsSafely(v, s.localTxPos, m)
    ensures SameBelow(Frames(s.mem, s.queue), Frames(Queue(v, s, m).value.mem, s.queue), s.localTxPos)
  {
    var _ := QueueAddsFrame(v, s, m);
  }

  /** Storing a padding header over the last message turns it into padding. */
  lemma OverwriteLoses(mem: Memory, queue: SlotQueue, avail: nat, w: nat, tx: nat)
    requires QueueOk(mem, queue, avail) && w < avail * SLOT_SIZE && 0 < PositionOf(queue, w).index < |mem|
    requires w % SLOT_SIZE < tx % SLOT_SIZE && w <= tx && tx % 8 == 0 && w % 8 == 0
    ensures PositionOf(queue, w).offset + HEADER_SIZE <= SLOT_SIZE && HEADER_SIZE <= SpaceLeft(tx)
    ensures var f := Frames(StoreMessage(mem, PositionOf(queue, w), 0, SpaceLeft(tx) - HEADER_SIZE, []), queue);
            SameBelow(Frames(mem, queue), f, w) && Lost(f, w, tx + SpaceLeft(tx))
  {
    hide StoreMessage;
    hide SameBelow;
    OffsetIsAligned(tx);
    OffsetIsAligned(w);
    var size := SpaceLeft(tx) - HEADER_SIZE;
    StoreKeepsBelow(queue, avail, mem, w, w, 0, size, []);
    var pad := StoredPaddingReads(mem, PositionOf(queue, w), size);
    StrideIsLeast(size, SpaceLeft(tx));
    assert Frames(StoreMessage(mem, PositionOf(queue, w), 0, size, []), queue)(w) == Some(pad);
  }

  /** As written, padding lands on the last message `last`, which starts at `w`. */
  lemma PaddingAsWritten(s: Side, w: nat, last: Msg, m: Msg)
    requires WriterOk(s) && Stride(m) <= SLOT_SIZE && Queue(AsWritten, s, m).Some?
    requires Stride(m) > SpaceLeft(s.localTxPos)
    requires s.txData == Some(PositionOf(s.queue, w)) && w % 8 == 0
    requires FitsSlot(w, last) && w + Stride(last) == s.localTxPos
    ensures var f' := Frames(Queue(AsWritten, s, m).value.mem, s.queue);
            && SameBelow(Frames(s.mem, s.queue), f', w)
            && Lost(f', w, StartPos(s.localTxPos, Stride(m)))
  {
    hide Queue;
    hide StoreMessage;
    hide SameBelow;
    var tx, pos := s.localTxPos, StartPos(s.localTxPos, Stride(m));
    QueueEffect(AsWritten, s, m);
    StartPosFits(tx, Stride(m), s.avail);
    OffsetIsAligned(tx);
    if w % SLOT_SIZE + Stride(last) == SLOT_SIZE {
      DivMod(w / SLOT_SIZE + 1, 0, tx);
    } else {
      DivMod(w / SLOT_SIZE, w % SLOT_SIZE + Stride(last), tx);
    }
    var mem := MemoryPadded(AsWritten, s, Stride(m));
    assert 0 < PositionOf(s.queue, w).index < |s.mem|;
    OverwriteLoses(s.mem, s.queue, s.avail, w, tx);
    StoreKeepsBelow(s.queue, s.avail, mem, pos, pos, m.id, |m.data|, m.data);
    LostStays(Frames(s.mem, s.queue), Frames(mem, s.queue), Frames(Queue(AsWritten, s, m).value.mem, s.queue), w, pos);
  }

  lemma LostStays(a: Stream, b: Stream, c: Stream, w: nat, pos: nat)
    requires SameBelow(a, b, w) && Lost(b, w, pos) && SameBelow(b, c, pos) && w <= pos
    ensures SameBelow(a, c, w) && Lost(c, w, pos)
  {
  }

  lemma StartIsAligned(pos: nat, m: Msg)
    requires pos % 8 == 0 && Stride(m) <= SLOT_SIZE
    ensures var p := StartPos(pos, Stride(m)); FitsSlot(p, m) && p % 8 == 0 && (p + Stride(m)) % 8 == 0
  {
    hide StartPos;
    hide CalcMsgStride;
    StartPosFits(pos, Stride(m), pos);
    SumAligned(StartPos(pos, Stride(m)), Stride(m));
  }

  lemma SumAligned(a: nat, b: nat)
    requires a % 8 == 0 && b % 8 == 0
    ensures (a + b) % 8 == 0
  {
  }

  lemma {:induction false} StartsFit(ms: seq<Msg>)
    requires Sendable(ms)
    ensures EndPos(ms) % 8 == 0
    ensures forall k | 0 <= k < |ms| :: FitsSlot(Starts(ms)[k], ms[k]) && Starts(ms)[k] % 8 == 0
  {
    if ms != [] {
      hide IsPadding;
      hide StartPos;
      hide FitsSlot;
      var init, last := ms[..|ms| - 1], ms[|ms| - 1];
      StartsFit(init);
      StartIsAligned(EndPos(init), last);
    }
  }

  lemma LostLater(a: Stream, b: Stream, start: nat, end: nat, pos: nat)
    requires Lost(a, start, end) && SameBelow(a, b, end)
    requires end <= pos
    ensures Lost(b, start, pos)
  {
  }

  lemma SameBelowLess(a: Stream, b: Stream, p: nat, q: nat)
    requires SameBelow(a, b, q) && p <= q
    ensures SameBelow(a, b, p)
  {
  }

  lemma IntactStays(s: Side, s': Side, ms: seq<Msg>)
    requires Sendable(ms) && Intact(s, ms) && s'.queue == s.queue
    requires SameBelow(Frames(s.mem, s.queue), Frames(s'.mem, s.queue), EndPos(ms))
    ensures Intact(s', ms)
  {
    hide IsPadding;
    StartsFit(ms);
    StartsOrdered(ms);
    var f, f' := Frames(s.mem, s.queue), Frames(s'.mem, s.queue);
    forall k | 0 <= k < |ms|
      ensures f'(Starts(ms)[k]) == Some(ms[k])
    {
      assert f(Starts(ms)[k]) == Some(ms[k]);
    }
  }

  /** What is known about the writer after `ms`; `lost` is the message that padding has destroyed, if any. */
  predicate WrittenSoFar(v: Variant, s: Side, ms: seq<Msg>, lost: nat) {
    && ms != []
    && var n := |ms| - 1;
       var f := Frames(s.mem, s.queue);
       && s.localTxPos == EndPos(ms) && s.txData == Some(PositionOf(s.queue, Starts(ms)[n]))
       && (v.AsDocumented? || !Pads(ms) ==> Intact(s, ms))
       && (v.AsWritten? && Pads(ms) ==> lost < n && Lost(f, Starts(ms)[lost], Starts(ms)[n]))
  }

  lemma FirstWritten(v: Variant, s: Side, m: Msg)
    requires WriterOk(s) && s.localTxPos == 0 && Sendable([m]) && Queue(v, s, m).Some?
    ensures WrittenSoFar(v, Queue(v, s, m).value, [m], 0)
  {
    hide Queue;
    hide IsPadding;
    hide ReadMessage;
    hide StoreMessage;
    hide MemoryPadded;
    hide QueueOk;
    hide Lost;
    assert [] + [m] == [m];
    OneMore([], m);
    QueuedReads(v, s, m);
    QueueEffect(v, s, m);
  }

  lemma NextWritten(v: Variant, s: Side, init: seq<Msg>, m: Msg, lost: nat) returns (lost': nat)
    requires WriterOk(s) && Sendable(init + [m]) && WrittenSoFar(v, s, init, lost) && Queue(v, s, m).Some?
    ensures WrittenSoFar(v, Queue(v, s, m).value, init + [m], lost')
  {
    hide Queue;
    hide IsPadding;
    hide SameBelow;
    hide Lost;
    hide FitsSlot;
    hide EndPos;
    hide Starts;
    hide Pads;
    hide Sendable;
    hide WriterOk;
    OneMore(init, m);
    var ms, s' := init + [m], Queue(v, s, m).value;
    var n := |init| - 1;
    var w, pos := Starts(init)[n], StartPos(s.localTxPos, Stride(m));
    var f, f' := Frames(s.mem, s.queue), Frames(s'.mem, s.queue);
    StartsFit(init);
    StartPosIsAbove(s.localTxPos, Stride(m));
    QueueEffect(v, s, m);
    QueuedReads(v, s, m);
    lost' := lost;
    if v.AsWritten? && Stride(m) > SpaceLeft(s.localTxPos) {
      LastEnds(init);
      PaddingAsWritten(s, w, init[n], m);
      lost' := n;
    } else {
      QueueKeepsEarlier(v, s, m);
      if v.AsWritten? && Pads(init) {
        LastEnds(init);
        SameBelowLess(f, f', w, s.localTxPos);
        LostLater(f, f', Starts(init)[lost], w, pos);
      } else {
        IntactStays(s, s', init);
        IntactOneMore(s', init, m);
      }
    }
  }

  lemma LastEnds(ms: seq<Msg>)
    requires ms != []
    ensures var n := |ms| - 1; Starts(ms)[n] + Stride(ms[n]) == EndPos(ms)
  {
  }

  lemma IntactOneMore(s: Side, init: seq<Msg>, m: Msg)
    requires Intact(s, init) && Frames(s.mem, s.queue)(StartPos(EndPos(init), Stride(m))) == Some(m)
    ensures Intact(s, init + [m])
  {
    hide Pads;
    hide StartPos;
    OneMore(init, m);
    var ms := init + [m];
    var f := Frames(s.mem, s.queue);
    forall k | 0 <= k < |ms| ensures f(Starts(ms)[k]) == Some(ms[k]) {
      if k < |init| {
        assert f(Starts(init)[k]) == Some(init[k]);
      }
    }
  }

  lemma {:induction false} AllWritten(v: Variant, s: Side, ms: seq<Msg>) returns (lost: nat)
    requires WriterOk(s) && s.localTxPos == 0 && Sendable(ms) && ms != [] && QueueAll(v, s, ms).Some?
    ensures WrittenSoFar(v, QueueAll(v, s, ms).value, ms, lost)
    decreases |ms|
  {
    hide Queue;
    hide WrittenSoFar;
    hide WriterOk;
    hide IsPadding;
    var init, m := ms[..|ms| - 1], ms[|ms| - 1];
    assert init + [m] == ms;
    if init == [] {
      FirstWritten(v, s, m);
      assert [m] == ms;
      lost := 0;
    } else {
      var l := AllWritten(v, s, init);
      lost := NextWritten(v, QueueAll(v, s, init).value, init, m, l);
    }
  }

  /**
   * Exactly when padding does no harm: written from position 0, all messages stay readable where they were put
   * if the padding goes to the documented position, or if no message is larger than the space left in the slot
   * it meets. Otherwise the message before the padding is gone for good.
   */
  lemma PaddingHarmlessIff(v: Variant, s: Side, ms: seq<Msg>)
    requires WriterOk(s) && s.localTxPos == 0 && Sendable(ms) && QueueAll(v, s, ms).Some?
    ensures Intact(QueueAll(v, s, ms).value, ms) <==> (v.AsDocumented? || !Pads(ms))
  {
    if ms != [] {
      hide QueueAll;
      var lost := AllWritten(v, s, ms);
      if v.AsWritten? && Pads(ms) {
        var s' := QueueAll(v, s, ms).value;
        assert Lost(Frames(s'.mem, s'.queue), Starts(ms)[lost], Starts(ms)[|ms| - 1]);
        assert !IsPadding(ms[lost]);
      }
    }
  }

  /**
   * A concrete loss, with the sizes a client's first calls have: CONNECT, OPEN, and data that needs a slot of its own.
   * The padding in front of the data takes the place of the OPEN.
   */
  lemma PaddingLosesMessage(s: Side, connect: Msg, open: Msg, data: Msg)
    requires WriterOk(s) && s.localTxPos == 0 && Sendable([connect, open, data])
    requires Stride(connect) == 8 && Stride(open) == 24 && Stride(data) == SLOT_SIZE
    requires QueueAll(AsWritten, s, [connect, open, data]).Some?
    ensures var s' := QueueAll(AsWritten, s, [connect, open, data]).value;
            && !Intact(s', [connect, open, data]) && Starts([connect, open, data])[1] == 8
            && Lost(Frames(s'.mem, s'.queue), 8, SLOT_SIZE)
  {
    hide Queue;
    hide WriterOk;
    hide IsPadding;
    hide Intact;
    hide Sendable;
    var two := [connect, open];
    assert [] + [connect] == [connect] && [connect] + [open] == two && two + [data] == [connect, open, data];
    assert [connect, open, data][..2] == two;
    OneMore([], connect);
    OneMore([connect], open);
    OneMore(two, data);
    assert EndPos([connect]) == 8 && EndPos(two) == 32 && Starts(two) == [0, 8];
    PaddingHarmlessIff(AsWritten, s, [connect, open, data]);
    var _ := AllWritten(AsWritten, s, two);
    PaddingAsWritten(QueueAll(AsWritten, s, two).value, 8, open, data);
  }

  // ----- capacity -----

  lemma EndPosGrows(init: seq<Msg>, m: Msg)
    ensures EndPos(init) < EndPos(init + [m])
  {
    OneMore(init, m);
    StartPosIsAbove(EndPos(init), Stride(m));
  }

  /**
   * The only assertion about slots stops the writer exactly when the messages would not fit the slots it owns, and
   * until then its position stays within them.
   */
  lemma {:induction false} CapacityIff(v: Variant, s: Side, ms: seq<Msg>)
    requires WriterOk(s) && s.localTxPos == 0 && Sendable(ms)
    ensures QueueAll(v, s, ms).Some? <==> EndPos(ms) <= s.avail * SLOT_SIZE
    ensures QueueAll(v, s, ms).Some? ==> QueueAll(v, s, ms).value.localTxPos == EndPos(ms)
    decreases |ms|
  {
    if ms != [] {
      hide Queue;
      hide IsPadding;
      hide EndPos;
      hide Starts;
      hide Pads;
      hide StartPos;
      var init, m := ms[..|ms| - 1], ms[|ms| - 1];
      assert init + [m] == ms;
      CapacityIff(v, s, init);
      OneMore(init, m);
      EndPosGrows(init, m);
      if QueueAll(v, s, init).Some? {
        var s1 := QueueAll(v, s, init).value;
        QueueEnds(v, s1, m);
      }
    }
  }

  // ----- the reader's fresh slot -----

  /**
   * Entering a slot at position `rx`, the slot chosen from the published position is the right one exactly while
   * the peer has not filled that slot.
   */
  lemma FreshSlotRightIff(mem: Memory, queue: SlotQueue, avail: nat, rx: nat, tx: nat)
    requires QueueOk(mem, queue, avail) && rx % SLOT_SIZE == 0 && rx < tx && tx / SLOT_SIZE < avail
    ensures FreshSlot(AsWritten, queue, rx, tx) == FreshSlot(AsDocumented, queue, rx, tx) <==> tx < rx + SLOT_SIZE
  {
    var k, j := rx / SLOT_SIZE, tx / SLOT_SIZE;
    assert rx == k * SLOT_SIZE && k <= j < avail;
    assert k % SLOT_QUEUE_LEN == k && j % SLOT_QUEUE_LEN == j;
    if k < j {
      assert queue[k] != queue[j];
    } else {
      assert tx < rx + SLOT_SIZE;
    }
  }

  /** A frame boundary lies wherever a slot starts. */
  lemma {:induction false} TilesFromSlot(read: Stream, from: nat, to: nat, fs: seq<Msg>, b: nat) returns (gs: seq<Msg>)
    requires Tiles(read, from, to, fs) && from <= b <= to && b % SLOT_SIZE == 0
    ensures Tiles(read, b, to, gs)
    decreases |fs|
  {
    gs := fs;
    if from != b {
      NoSlotStartInside(from, Stride(fs[0]), b);
      gs := TilesFromSlot(read, from + Stride(fs[0]), to, fs[1..], b);
    }
  }

  lemma NoSlotStartInside(pos: nat, stride: nat, b: nat)
    requires pos % SLOT_SIZE + stride <= SLOT_SIZE && pos < b && b % SLOT_SIZE == 0
    ensures pos + stride <= b
  {
  }

  /** Where a reader with nothing but the position `tx` to go by stands in the stream: at `p`. */
  predicate StandsAt(queue: SlotQueue, r: Reader, p: nat, tx: nat) {
    && r.rxPos < p && r.rxPos % SLOT_SIZE == p % SLOT_SIZE && p / SLOT_SIZE == tx / SLOT_SIZE
    && (if r.rxData.None? then FreshSlot(AsWritten, queue, r.rxPos, tx) else r.rxData.value) == PositionOf(queue, p)
  }

  lemma WrongTurn(mem: Memory, queue: SlotQueue, r: Reader, p: nat, tx: nat, m: Msg)
    requires StandsAt(queue, r, p, tx) && Frames(mem, queue)(p) == Some(m) && FitsSlot(p, m) && p + Stride(m) <= tx
    ensures var t := ParseOne(AsWritten, mem, queue, r, tx);
            && t.Some? && t.value.1 == m && StandsAt(queue, t.value.0, p + Stride(m), tx)
            && r.rxPos < t.value.0.rxPos
  {
    hide ReadMessage;
    hide FreshSlot;
    StepInSlot(r.rxPos, p, Stride(m), tx);
    AfterFrame(queue, p, m);
  }

  /** A reader in the wrong slot, the one of `tx`: it reads that slot's frames until it meets what cannot be read. */
  lemma {:induction false} WrongSlotStuck(mem: Memory, queue: SlotQueue, r: Reader, p: nat, tx: nat, gs: seq<Msg>)
    requires Tiles(Frames(mem, queue), p, tx, gs) && Frames(mem, queue)(tx) == None && StandsAt(queue, r, p, tx)
    ensures Parse(AsWritten, mem, queue, r, tx) == None
    decreases |gs|
  {
    TilesOrdered(Frames(mem, queue), p, tx, gs);
    hide ReadMessage;
    hide FreshSlot;
    if gs != [] {
      hide ParseOne;
      hide StandsAt;
      TilesOrdered(Frames(mem, queue), p + Stride(gs[0]), tx, gs[1..]);
      WrongTurn(mem, queue, r, p, tx, gs[0]);
      WrongSlotStuck(mem, queue, ParseOne(AsWritten, mem, queue, r, tx).value.0, p + Stride(gs[0]), tx, gs[1..]);
    }
  }

  lemma StepInSlot(r: nat, p: nat, stride: nat, tx: nat)
    requires r % SLOT_SIZE == p % SLOT_SIZE && p / SLOT_SIZE == tx / SLOT_SIZE && 0 < stride && p + stride <= tx
    ensures (r + stride) % SLOT_SIZE == (p + stride) % SLOT_SIZE != 0 && (p + stride) / SLOT_SIZE == tx / SLOT_SIZE
  {
    DivMod(p / SLOT_SIZE, p % SLOT_SIZE + stride, p + stride);
    DivMod(r / SLOT_SIZE, r % SLOT_SIZE + stride, r + stride);
  }

  /** A reader about to enter a full slot gets stuck if nothing can be read at the published position. */
  lemma EntryStuck(mem: Memory, queue: SlotQueue, rx: nat, tx: nat, fs: seq<Msg>)
    requires Tiles(Frames(mem, queue), rx, tx, fs) && Frames(mem, queue)(tx) == None
    requires rx % SLOT_SIZE == 0 && tx >= rx + SLOT_SIZE
    ensures Parse(AsWritten, mem, queue, ReaderAt(queue, rx), tx) == None
  {
    hide Tiles;
    hide Parse;
    hide ReadMessage;
    hide ReaderAt;
    hide StandsAt;
    var p := StandsAtSlotOf(queue, rx, tx);
    var gs := TilesFromSlot(Frames(mem, queue), rx, tx, fs, p);
    WrongSlotStuck(mem, queue, ReaderAt(queue, rx), p, tx, gs);
  }

  /** A reader about to enter a full slot is led to the start of the slot of `tx`. */
  lemma StandsAtSlotOf(queue: SlotQueue, rx: nat, tx: nat) returns (p: nat)
    requires rx % SLOT_SIZE == 0 && tx >= rx + SLOT_SIZE
    ensures rx < p <= tx && p % SLOT_SIZE == 0 && StandsAt(queue, ReaderAt(queue, rx), p, tx)
  {
    p := tx / SLOT_SIZE * SLOT_SIZE;
    DivMod(tx / SLOT_SIZE, 0, p);
  }

  /** So does one on the way there. */
  lemma {:induction false} FullSlotStuck(mem: Memory, queue: SlotQueue, rx: nat, tx: nat, fs: seq<Msg>)
    requires Tiles(Frames(mem, queue), rx, tx, fs) && Frames(mem, queue)(tx) == None && !EntersOnlyOpenSlots(rx, tx)
    ensures Parse(AsWritten, mem, queue, ReaderAt(queue, rx), tx) == None
    decreases |fs|
  {
    var b :| rx <= b < tx && b % SLOT_SIZE == 0 && tx >= b + SLOT_SIZE;
    hide ReadMessage;
    hide ReaderAt;
    hide ParseOne;
    if rx % SLOT_SIZE == 0 && tx >= rx + SLOT_SIZE {
      EntryStuck(mem, queue, rx, tx, fs);
    } else {
      TilesOrdered(Frames(mem, queue), rx, tx, fs);
      ParseOneReads(AsWritten, mem, queue, rx, tx, fs[0]);
      NoSlotStartInside(rx, Stride(fs[0]), b);
      FullSlotStuck(mem, queue, rx + Stride(fs[0]), tx, fs[1..]);
    }
  }

  /** A header whose size leaves the slot cannot be read. */
  lemma UnreadableHeader(mem: Memory, queue: SlotQueue, tx: nat)
    requires IsMemory(mem) && 0 < PositionOf(queue, tx).index < |mem| && tx % SLOT_SIZE + HEADER_SIZE <= SLOT_SIZE
    ensures Frames(StoreMessage(mem, PositionOf(queue, tx), 0, 0xFFFF_FFFF, []), queue)(tx) == None
  {
    hide MessageAt;
    hide Splice;
    hide Header;
    var at := PositionOf(queue, tx);
    TooLongToRead(mem[at.index], at.offset);
    OffsetInSlot(tx);
  }

  lemma OffsetInSlot(tx: nat)
    ensures tx % SLOT_SIZE % SLOT_SIZE == tx % SLOT_SIZE
  {
  }

  /** Such a header at the published position changes no frame below it. */
  lemma UnreadableAt(mem: Memory, queue: SlotQueue, avail: nat, rx: nat, tx: nat, fs: seq<Msg>)
    returns (mem': Memory)
    requires QueueOk(mem, queue, avail) && rx % 8 == 0 && tx / SLOT_SIZE < avail
    requires Tiles(Frames(mem, queue), rx, tx, fs)
    ensures QueueOk(mem', queue, avail) && Tiles(Frames(mem', queue), rx, tx, fs) && Frames(mem', queue)(tx) == None
  {
    hide StoreMessage;
    hide Tiles;
    hide SameBelow;
    TilesOrdered(Frames(mem, queue), rx, tx, fs);
    OffsetIsAligned(tx);
    var at := PositionOf(queue, tx);
    assert tx / SLOT_SIZE % SLOT_QUEUE_LEN == tx / SLOT_SIZE;
    UnreadableHeader(mem, queue, tx);
    mem' := StoreMessage(mem, at, 0, 0xFFFF_FFFF, []);
    StoreKeepsQueueOk(mem, queue, avail, at, 0, 0xFFFF_FFFF, []);
    StoreKeepsBelow(queue, avail, mem, tx, tx, 0, 0xFFFF_FFFF, []);
    TilesKept(Frames(mem, queue), Frames(mem', queue), rx, tx, tx, fs);
  }

  lemma TooLongToRead(slot: seq<byte>, at: nat)
    requires at + HEADER_SIZE <= |slot| == SLOT_SIZE
    ensures MessageAt(Splice(slot, at, Header(0, 0xFFFF_FFFF) + []), at) == None
  {
    var r := Splice(slot, at, Header(0, 0xFFFF_FFFF) + []);
    var w := r[at..at + 8];
    assert r[at + 4..at + 8] == w[4..8] == WordBytes(0xFFFF_FFFF);
  }

  /** The reader as written reads the frames `fs`, whatever else the slots contain. */
  ghost predicate ReadsWhatever(queue: SlotQueue, avail: nat, rx: nat, tx: nat, fs: seq<Msg>) {
    forall mem | QueueOk(mem, queue, avail) && Tiles(Frames(mem, queue), rx, tx, fs) ::
      Parse(AsWritten, mem, queue, ReaderAt(queue, rx), tx) == Some((ReaderAt(queue, tx), fs))
  }

  /**
   * Exactly when the reader as written is right: it reads the frames up to the published position, whatever the
   * slots contain apart from them, if and only if it enters no slot that is already full. The published position
   * lies in one of the other side's slots; at their very end there is no slot to look up.
   */
  lemma PollAsWrittenIff(mem: Memory, queue: SlotQueue, avail: nat, rx: nat, tx: nat, fs: seq<Msg>)
    requires QueueOk(mem, queue, avail) && rx % 8 == 0 && tx / SLOT_SIZE < avail
    requires Tiles(Frames(mem, queue), rx, tx, fs)
    ensures ReadsWhatever(queue, avail, rx, tx, fs) <==> EntersOnlyOpenSlots(rx, tx)
  {
    hide Tiles;
    hide EntersOnlyOpenSlots;
    hide QueueOk;
    if EntersOnlyOpenSlots(rx, tx) {
      forall mem' | QueueOk(mem', queue, avail) && Tiles(Frames(mem', queue), rx, tx, fs)
        ensures Parse(AsWritten, mem', queue, ReaderAt(queue, rx), tx) == Some((ReaderAt(queue, tx), fs))
      {
        ParseReadsFrames(AsWritten, mem', queue, rx, tx, fs);
      }
    } else {
      var mem' := UnreadableAt(mem, queue, avail, rx, tx, fs);
      FullSlotStuck(mem', queue, rx, tx, fs);
      assert !ReadsWhatever(queue, avail, rx, tx, fs);
    }
  }

  /**
   * A slot filled before it is entered is missed: the reader as written turns to the next slot instead, and
   * delivers the message queued only if that slot happens to start with the very same one.
   */
  lemma FilledSlotMissed(mem: Memory, queue: SlotQueue, avail: nat, m: Msg)
    requires QueueOk(mem, queue, avail) && avail >= 2
    requires ReadMessage(mem, SlotPosition(queue[0], 0)) == Some(m) && Stride(m) == SLOT_SIZE
    ensures Parse(AsDocumented, mem, queue, ReaderAt(queue, 0), SLOT_SIZE) == Some((ReaderAt(queue, SLOT_SIZE), [m]))
    ensures var p := Parse(AsWritten, mem, queue, ReaderAt(queue, 0), SLOT_SIZE);
            p.Some? && p.value.1 == [m] <==> ReadMessage(mem, SlotPosition(queue[1], 0)) == Some(m)
  {
    assert PositionOf(queue, 0) == SlotPosition(queue[0], 0);
    OneTile(Frames(mem, queue), 0, m);
    ParseReadsFrames(AsDocumented, mem, queue, 0, SLOT_SIZE, [m]);
    hide ReadMessage;
    assert FreshSlot(AsWritten, queue, 0, SLOT_SIZE) == SlotPosition(queue[1], 0);
    var r := ParseOne(AsWritten, mem, queue, ReaderAt(queue, 0), SLOT_SIZE);
    if r.Some? && r.value.1 == m {
      assert r.value.0.rxPos == SLOT_SIZE;
      assert Parse(AsWritten, mem, queue, r.value.0, SLOT_SIZE) == Some((r.value.0, []));
    }
  }
}
