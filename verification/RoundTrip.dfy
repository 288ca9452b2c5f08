/** The reader recovers exactly what the writer queued, however writing and reading are interleaved. */
module RoundTrip {
  import opened Config
  import opened SlotMessage
  import opened Slots
  import opened Transport

  // ----- what one queued message adds to the stream -----

  lemma SameBelowTrans(a: Stream, b: Stream, c: Stream, p: nat, q: nat)
    requires p <= q && SameBelow(a, b, p) && SameBelow(b, c, q)
    ensures SameBelow(a, c, p)
  {
  }

  lemma SameBelowRefl(a: Stream, p: nat)
    ensures SameBelow(a, a, p)
  {
  }

  lemma NoTiles(a: Stream, p: nat)
    ensures Tiles(a, p, p, [])
  {
  }

  /** Storing message `m` at `pos` makes it the frame there. */
  lemma StoreMakesFrame(mem: Memory, queue: SlotQueue, pos: nat, m: Msg)
    requires IsMemory(mem) && 0 < PositionOf(queue, pos).index < |mem| && FitsSlot(pos, m)
    ensures var r := StoreMessage(mem, PositionOf(queue, pos), m.id, |m.data|, m.data);
            Tiles(Frames(r, queue), pos, pos + Stride(m), [m])
  {
    var r := StoreMessage(mem, PositionOf(queue, pos), m.id, |m.data|, m.data);
    StoredReads(mem, PositionOf(queue, pos), m);
    assert Frames(r, queue)(pos) == Some(m);
    OneTile(Frames(r, queue), pos, m);
  }

  /** Storing a padding header at `pos` makes one padding frame of the rest of the slot. */
  lemma StoreMakesPadding(mem: Memory, queue: SlotQueue, pos: nat) returns (pad: Msg)
    requires IsMemory(mem) && 0 < PositionOf(queue, pos).index < |mem| && pos % 8 == 0
    ensures IsPadding(pad) && HEADER_SIZE <= SpaceLeft(pos)
    ensures var r := StoreMessage(mem, PositionOf(queue, pos), 0, SpaceLeft(pos) - HEADER_SIZE, []);
            Tiles(Frames(r, queue), pos, pos + SpaceLeft(pos), [pad])
  {
    OffsetIsAligned(pos);
    var size := SpaceLeft(pos) - HEADER_SIZE;
    var r := StoreMessage(mem, PositionOf(queue, pos), 0, size, []);
    pad := StoredPaddingReads(mem, PositionOf(queue, pos), size);
    assert Frames(r, queue)(pos) == Some(pad);
    StrideIsLeast(size, SpaceLeft(pos));
    OneTile(Frames(r, queue), pos, pad);
  }

  /** The documented padding position is the writer's own position. */
  lemma PaddingIsAtTxPos(s: Side)
    requires WriterOk(s) && s.localTxPos % SLOT_SIZE != 0
    ensures PaddingPosition(AsDocumented, s) == PositionOf(s.queue, s.localTxPos)
    ensures s.localTxPos < s.avail * SLOT_SIZE
  {
    DivMod(s.localTxPos / SLOT_SIZE, s.localTxPos % SLOT_SIZE - 1, s.localTxPos - 1);
  }

  /** Storing padding at `tx` adds one padding frame and changes nothing below. */
  lemma PaddingAddsFrame(mem: Memory, queue: SlotQueue, avail: nat, tx: nat) returns (pad: Msg)
    requires QueueOk(mem, queue, avail) && tx < avail * SLOT_SIZE && tx % 8 == 0
    requires 0 < PositionOf(queue, tx).index < |mem|
    ensures IsPadding(pad) && HEADER_SIZE <= SpaceLeft(tx)
    ensures var f := Frames(StoreMessage(mem, PositionOf(queue, tx), 0, SpaceLeft(tx) - HEADER_SIZE, []), queue);
            SameBelow(Frames(mem, queue), f, tx) && Tiles(f, tx, tx + SpaceLeft(tx), [pad])
  {
    hide StoreMessage;
    hide Tiles;
    hide SameBelow;
    pad := StoreMakesPadding(mem, queue, tx);
    StoreKeepsBelow(queue, avail, mem, tx, tx, 0, SpaceLeft(tx) - HEADER_SIZE, []);
  }

  /** Storing a message at `pos` adds its frame and changes nothing below. */
  lemma StoreAddsFrame(f0: Stream, mem: Memory, queue: SlotQueue, avail: nat, tx: nat, pos: nat, m: Msg, pads: seq<Msg>)
    requires QueueOk(mem, queue, avail) && tx <= pos < avail * SLOT_SIZE && FitsSlot(pos, m)
    requires 0 < PositionOf(queue, pos).index < |mem|
    requires SameBelow(f0, Frames(mem, queue), tx) && Tiles(Frames(mem, queue), tx, pos, pads)
    ensures var f := Frames(StoreMessage(mem, PositionOf(queue, pos), m.id, |m.data|, m.data), queue);
            SameBelow(f0, f, tx) && Tiles(f, tx, pos + Stride(m), pads + [m])
  {
    hide StoreMessage;
    hide Tiles;
    hide SameBelow;
    StoreKeepsBelow(queue, avail, mem, pos, pos, m.id, |m.data|, m.data);
    StoreMakesFrame(mem, queue, pos, m);
    var f1 := Frames(mem, queue);
    var f2 := Frames(StoreMessage(mem, PositionOf(queue, pos), m.id, |m.data|, m.data), queue);
    SameBelowTrans(f0, f1, f2, tx, pos);
    TilesKept(f1, f2, tx, pos, pos, pads);
    TilesAppend(f2, tx, pos, pos + Stride(m), pads, [m]);
  }

  /** The padding goes to the writer's own position, or there is none. */
  predicate PadsSafely(v: Variant, pos: nat, m: Msg) {
    v.AsDocumented? || Stride(m) <= SpaceLeft(pos)
  }

  /** The memory of a reservation, where padding is safe. */
  lemma PaddedMemoryIs(v: Variant, s: Side, m: Msg)
    requires WriterOk(s) && Stride(m) <= SLOT_SIZE && PadsSafely(v, s.localTxPos, m)
    ensures var tx, pos := s.localTxPos, StartPos(s.localTxPos, Stride(m));
            var mem := MemoryPadded(v, s, Stride(m));
            if pos == tx then mem == s.mem
            else
              && tx < s.avail * SLOT_SIZE && pos == tx + SpaceLeft(tx) && HEADER_SIZE <= SpaceLeft(tx)
              && 0 < PositionOf(s.queue, tx).index < |s.mem|
              && mem == StoreMessage(s.mem, PositionOf(s.queue, tx), 0, SpaceLeft(tx) - HEADER_SIZE, [])
  {
    StartPosFits(s.localTxPos, Stride(m), s.avail);
    if StartPos(s.localTxPos, Stride(m)) != s.localTxPos {
      PaddingIsAtTxPos(s);
      OffsetIsAligned(s.localTxPos);
    }
  }

  /**
   * A queued message adds itself to the stream, after at most one padding frame, and changes no earlier frame, if
   * the padding goes where the comment says or none is needed.
   */
  lemma QueueAddsFrame(v: Variant, s: Side, m: Msg) returns (pads: seq<Msg>)
    requires WriterOk(s) && Stride(m) <= SLOT_SIZE && Queue(v, s, m).Some? && PadsSafely(v, s.localTxPos, m)
    ensures var s' := Queue(v, s, m).value;
            && SameBelow(Frames(s.mem, s.queue), Frames(s'.mem, s.queue), s.localTxPos)
            && Tiles(Frames(s'.mem, s.queue), s.localTxPos, s'.localTxPos, pads + [m])
    ensures |pads| == (if StartPos(s.localTxPos, Stride(m)) == s.localTxPos then 0 else 1)
    ensures forall p | p in pads :: IsPadding(p)
  {
    hide StoreMessage;
    hide Tiles;
    hide SameBelow;
    hide MemoryPadded;
    hide Queue;
    var tx, pos := s.localTxPos, StartPos(s.localTxPos, Stride(m));
    QueueEffect(v, s, m);
    StartPosFits(tx, Stride(m), s.avail);
    PaddedMemoryIs(v, s, m);
    var f0 := Frames(s.mem, s.queue);
    if pos == tx {
      pads := [];
      SameBelowRefl(f0, tx);
      NoTiles(f0, tx);
    } else {
      var pad := PaddingAddsFrame(s.mem, s.queue, s.avail, tx);
      pads := [pad];
    }
    StoreAddsFrame(f0, MemoryPadded(v, s, Stride(m)), s.queue, s.avail, tx, pos, m, pads);
  }

  // ----- the reader on a stream of frames -----

  /** After a frame that fits its slot the reader stands where its own position says. */
  lemma AfterFrame(queue: SlotQueue, pos: nat, m: Msg)
    requires FitsSlot(pos, m)
    ensures (pos + Stride(m)) % SLOT_SIZE != 0 ==>
              PositionOf(queue, pos + Stride(m))
              == SlotPosition(PositionOf(queue, pos).index, PositionOf(queue, pos).offset + Stride(m))
  {
    var q, r := pos / SLOT_SIZE, pos % SLOT_SIZE;
    if r + Stride(m) == SLOT_SIZE {
      DivMod(q + 1, 0, pos + Stride(m));
    } else {
      DivMod(q, r + Stride(m), pos + Stride(m));
    }
  }

  /** No slot entered on the way from `rx` to `tx` is already full. */
  predicate EntersOnlyOpenSlots(rx: nat, tx: nat) {
    forall b | rx <= b < tx && b % SLOT_SIZE == 0 :: tx < b + SLOT_SIZE
  }

  /** The reader looks up the slot of its own position, or meets no slot for which that makes a difference. */
  predicate ReadsSafely(v: Variant, rx: nat, tx: nat) {
    v.AsDocumented? || EntersOnlyOpenSlots(rx, tx)
  }

  /** A slot just entered is found from the published position, too, while that lies in the same slot. */
  lemma SameFreshSlot(queue: SlotQueue, pos: nat, txPos: nat)
    requires pos % SLOT_SIZE == 0 && pos < txPos < pos + SLOT_SIZE
    ensures FreshSlot(AsWritten, queue, pos, txPos) == FreshSlot(AsDocumented, queue, pos, txPos)
  {
    DivMod(pos / SLOT_SIZE, txPos - pos, txPos);
  }

  lemma ParseOneReads(v: Variant, mem: Memory, queue: SlotQueue, pos: nat, txPos: nat, m: Msg)
    requires Frames(mem, queue)(pos) == Some(m) && FitsSlot(pos, m)
    requires pos < txPos && (v.AsDocumented? || (pos % SLOT_SIZE == 0 ==> txPos < pos + SLOT_SIZE))
    ensures ParseOne(v, mem, queue, ReaderAt(queue, pos), txPos)
            == Some((ReaderAt(queue, pos + Stride(m)), m))
  {
    hide Stride;
    hide ReadMessage;
    AfterFrame(queue, pos, m);
    if pos % SLOT_SIZE == 0 {
      assert FreshSlot(AsDocumented, queue, pos, txPos) == PositionOf(queue, pos);
      if v.AsWritten? {
        SameFreshSlot(queue, pos, txPos);
      }
    }
  }

  /**
   * On a stream cut into frames the loop ends, exactly at the position published, with its slot position in step,
   * having read exactly the frames.
   */
  lemma {:induction false} ParseReadsFrames(v: Variant, mem: Memory, queue: SlotQueue, from: nat, to: nat, fs: seq<Msg>)
    requires Tiles(Frames(mem, queue), from, to, fs) && ReadsSafely(v, from, to)
    ensures Parse(v, mem, queue, ReaderAt(queue, from), to) == Some((ReaderAt(queue, to), fs))
    decreases |fs|
  {
    TilesOrdered(Frames(mem, queue), from, to, fs);
    if fs != [] {
      hide ParseOne;
      hide ReadMessage;
      hide ReaderAt;
      hide FitsSlot;
      ParseOneReads(v, mem, queue, from, to, fs[0]);
      ParseReadsFrames(v, mem, queue, from + Stride(fs[0]), to, fs[1..]);
      assert [fs[0]] + fs[1..] == fs;
    }
  }

  // ----- interleavings -----

  /** One direction, with the reading of the code that writer and reader follow. */
  datatype Channel = Channel(writer: Variant, lookup: Variant, side: Side, reader: Reader, parsed: seq<Msg>)

  /** A peer queues a message, or the reader is polled. */
  datatype Op = Write(m: Msg) | Poll

  /** No code checks that a message fits a slot, so callers have to. */
  predicate Fits(op: Op) {
    op.Write? ==> Stride(op.m) <= SLOT_SIZE
  }

  function Step(c: Channel, op: Op): (r: Option<Channel>)
    requires WriterOk(c.side) && Fits(op)
    ensures r.Some? ==> WriterOk(r.value.side)
  {
    match op
    case Write(m) =>
      (match Queue(c.writer, c.side, m)
       case None => None
       case Some(side) => QueueKeepsWriterOk(c.writer, c.side, m); Some(c.(side := side)))
    case Poll =>
      (match Parse(c.lookup, c.side.mem, c.side.queue, c.reader, c.side.txPos)
       case None => None
       case Some((reader, ms)) => Some(c.(reader := reader, parsed := c.parsed + ms)))
  }

  function Run(c: Channel, ops: seq<Op>): (r: Option<Channel>)
    requires WriterOk(c.side) && forall op | op in ops :: Fits(op)
    ensures r.Some? ==> WriterOk(r.value.side)
    decreases |ops|
  {
    if ops == [] then Some(c)
    else
      match Step(c, ops[0])
      case None => None
      case Some(c1) => Run(c1, ops[1..])
  }

  /** Nothing goes wrong in this step, where the code is taken as written. */
  predicate Safe(c: Channel, op: Op) {
    match op
    case Write(m) => PadsSafely(c.writer, c.side.localTxPos, m)
    case Poll => ReadsSafely(c.lookup, c.reader.rxPos, c.side.txPos)
  }

  /** No step of the run goes wrong; with both variants as documented, that is every run. */
  predicate SafeRun(c: Channel, ops: seq<Op>)
    requires WriterOk(c.side) && forall op | op in ops :: Fits(op)
    decreases |ops|
  {
    ops != [] ==> Safe(c, ops[0]) && (Step(c, ops[0]).Some? ==> SafeRun(Step(c, ops[0]).value, ops[1..]))
  }

  function WrittenBy(op: Op): seq<Msg> {
    if op.Write? then [op.m] else []
  }

  /** The messages the operations queue, in order. */
  function Written(ops: seq<Op>): seq<Msg> {
    if ops == [] then [] else WrittenBy(ops[0]) + Written(ops[1..])
  }

  function NonPadding(ms: seq<Msg>): seq<Msg> {
    if ms == [] then []
    else (if IsPadding(ms[0]) then [] else [ms[0]]) + NonPadding(ms[1..])
  }

  lemma Associate(a: seq<Msg>, b: seq<Msg>, c: seq<Msg>)
    ensures a + (b + c) == a + b + c
  {
  }

  lemma {:induction false} NonPaddingAppend(a: seq<Msg>, b: seq<Msg>)
    ensures NonPadding(a + b) == NonPadding(a) + NonPadding(b)
  {
    hide IsPadding;
    if a == [] {
      assert a + b == b && NonPadding(a) == [];
      assert [] + NonPadding(b) == NonPadding(b);
    } else {
      NonPaddingAppend(a[1..], b);
      assert (a + b)[0] == a[0] && (a + b)[1..] == a[1..] + b;
      Associate(if IsPadding(a[0]) then [] else [a[0]], NonPadding(a[1..]), NonPadding(b));
    }
  }

  lemma {:induction false} OnlyPadding(pads: seq<Msg>)
    requires forall p | p in pads :: IsPadding(p)
    ensures NonPadding(pads) == []
  {
    hide IsPadding;
    if pads != [] {
      OnlyPadding(pads[1..]);
    }
  }

  /** The stream is framed from 0 to the published position; `rest` is what the reader has not parsed yet. */
  predicate InStep(c: Channel, sent: seq<Msg>, rest: seq<Msg>)
    ensures InStep(c, sent, rest) ==> WriterOk(c.side)
  {
    var f := Frames(c.side.mem, c.side.queue);
    && WriterOk(c.side)
    && c.reader == ReaderAt(c.side.queue, c.reader.rxPos)
    && Tiles(f, 0, c.side.txPos, c.parsed + rest)
    && Tiles(f, c.reader.rxPos, c.side.txPos, rest)
    && NonPadding(c.parsed + rest) == NonPadding(sent)
  }

  lemma NonPaddingAfter(ms: seq<Msg>, sent: seq<Msg>, pads: seq<Msg>, m: Msg)
    requires NonPadding(ms) == NonPadding(sent) && forall p | p in pads :: IsPadding(p)
    ensures NonPadding(ms + (pads + [m])) == NonPadding(sent + [m])
  {
    hide NonPadding;
    NonPaddingAppend(ms, pads + [m]);
    NonPaddingAppend(pads, [m]);
    NonPaddingAppend(sent, [m]);
    OnlyPadding(pads);
    assert [] + NonPadding([m]) == NonPadding([m]);
  }

  /** Frames up to `mid` stay, and those added above `mid` follow them. */
  lemma TilesGrow(a: Stream, b: Stream, from: nat, mid: nat, to: nat, fs: seq<Msg>, gs: seq<Msg>)
    requires SameBelow(a, b, mid) && Tiles(a, from, mid, fs) && Tiles(b, mid, to, gs)
    ensures Tiles(b, from, to, fs + gs)
  {
    TilesKept(a, b, from, mid, mid, fs);
    TilesAppend(b, from, mid, to, fs, gs);
  }

  /** The stream may grow behind the reader's back. */
  lemma GrowingKeepsInStep(c: Channel, side: Side, m: Msg, sent: seq<Msg>, rest: seq<Msg>, pads: seq<Msg>)
    requires InStep(c, sent, rest) && WriterOk(side) && side.queue == c.side.queue
    requires SameBelow(Frames(c.side.mem, side.queue), Frames(side.mem, side.queue), c.side.txPos)
    requires Tiles(Frames(side.mem, side.queue), c.side.txPos, side.txPos, pads + [m])
    requires forall p | p in pads :: IsPadding(p)
    ensures InStep(c.(side := side), sent + [m], rest + (pads + [m]))
  {
    hide Tiles;
    hide SameBelow;
    hide NonPadding;
    hide WriterOk;
    hide Frames;
    hide ReaderAt;
    var f, f' := Frames(c.side.mem, side.queue), Frames(side.mem, side.queue);
    TilesGrow(f, f', 0, c.side.txPos, side.txPos, c.parsed + rest, pads + [m]);
    TilesGrow(f, f', c.reader.rxPos, c.side.txPos, side.txPos, rest, pads + [m]);
    assert c.parsed + (rest + (pads + [m])) == c.parsed + rest + (pads + [m]);
    NonPaddingAfter(c.parsed + rest, sent, pads, m);
  }

  lemma WriteKeepsInStep(c: Channel, m: Msg, sent: seq<Msg>, rest: seq<Msg>) returns (rest': seq<Msg>)
    requires InStep(c, sent, rest) && Stride(m) <= SLOT_SIZE && Queue(c.writer, c.side, m).Some?
    requires PadsSafely(c.writer, c.side.localTxPos, m)
    ensures InStep(c.(side := Queue(c.writer, c.side, m).value), sent + [m], rest')
  {
    hide InStep;
    hide Queue;
    hide Tiles;
    hide SameBelow;
    hide StoreMessage;
    hide MemoryPadded;
    hide Frames;
    hide StartPos;
    QueueEffect(c.writer, c.side, m);
    QueueKeepsWriterOk(c.writer, c.side, m);
    var pads := QueueAddsFrame(c.writer, c.side, m);
    rest' := rest + (pads + [m]);
    GrowingKeepsInStep(c, Queue(c.writer, c.side, m).value, m, sent, rest, pads);
  }

  /** A poll never gets stuck and leaves nothing unread. */
  lemma PollKeepsInStep(c: Channel, sent: seq<Msg>, rest: seq<Msg>)
    requires InStep(c, sent, rest) && ReadsSafely(c.lookup, c.reader.rxPos, c.side.txPos)
    ensures var last := ReaderAt(c.side.queue, c.side.txPos);
            && Parse(c.lookup, c.side.mem, c.side.queue, c.reader, c.side.txPos) == Some((last, rest))
            && Step(c, Poll) == Some(c.(reader := last, parsed := c.parsed + rest))
            && InStep(Step(c, Poll).value, sent, [])
  {
    ParseReadsFrames(c.lookup, c.side.mem, c.side.queue, c.reader.rxPos, c.side.txPos, rest);
    assert c.parsed + rest + [] == c.parsed + rest;
  }

  lemma StepKeepsInStep(c: Channel, op: Op, sent: seq<Msg>, rest: seq<Msg>) returns (rest': seq<Msg>)
    requires InStep(c, sent, rest) && Fits(op) && Safe(c, op) && Step(c, op).Some?
    ensures InStep(Step(c, op).value, sent + WrittenBy(op), rest')
    ensures op.Poll? ==> rest' == []
  {
    hide InStep;
    hide Queue;
    hide Parse;
    if op.Write? {
      rest' := WriteKeepsInStep(c, op.m, sent, rest);
    } else {
      PollKeepsInStep(c, sent, rest);
      rest' := [];
      assert sent + [] == sent;
    }
  }

  lemma {:induction false} RunKeepsInStep(c: Channel, ops: seq<Op>, sent: seq<Msg>, rest: seq<Msg>)
    returns (rest': seq<Msg>)
    requires InStep(c, sent, rest) && (forall op | op in ops :: Fits(op)) && SafeRun(c, ops)
    ensures var r := Run(c, ops);
            r.Some? ==>
              && InStep(r.value, sent + Written(ops), rest')
              && (if ops == [] then rest' == rest else ops[|ops| - 1].Poll? ==> rest' == [])
    decreases |ops|
  {
    hide InStep;
    hide Step;
    hide Safe;
    hide WriterOk;
    hide WrittenBy;
    rest' := rest;
    if ops == [] {
      assert sent + [] == sent;
    } else if Step(c, ops[0]).Some? {
      var c1 := Step(c, ops[0]).value;
      var rest1 := StepKeepsInStep(c, ops[0], sent, rest);
      rest' := RunKeepsInStep(c1, ops[1..], sent + WrittenBy(ops[0]), rest1);
      assert sent + WrittenBy(ops[0]) + Written(ops[1..]) == sent + Written(ops);
      if |ops| == 1 {
        assert ops[1..] == [];
      } else {
        assert ops[1..][|ops| - 2] == ops[|ops| - 1];
      }
    }
  }

  // ----- capacity -----

  /** The writer's position after queueing `ms` from position 0. */
  function EndPos(ms: seq<Msg>): nat {
    if ms == [] then 0
    else
      var last := ms[|ms| - 1];
      StartPos(EndPos(ms[..|ms| - 1]), Stride(last)) + Stride(last)
  }

  lemma StartPosIsAbove(pos: nat, need: nat)
    ensures pos <= StartPos(pos, need)
  {
  }

  /** Where a queued message ends, and when there is no room for it. */
  lemma QueueEnds(v: Variant, s: Side, m: Msg)
    requires WriterOk(s) && Stride(m) <= SLOT_SIZE
    ensures Queue(v, s, m).None? <==> s.avail * SLOT_SIZE < StartPos(s.localTxPos, Stride(m)) + Stride(m)
    ensures Queue(v, s, m).Some? ==>
              && Queue(v, s, m).value.localTxPos == StartPos(s.localTxPos, Stride(m)) + Stride(m)
              && Queue(v, s, m).value.avail == s.avail
  {
    hide Queue;
    QueueEffect(v, s, m);
    StartPosFits(s.localTxPos, Stride(m), s.avail);
  }

  lemma EndPosOneMore(ms: seq<Msg>, m: Msg)
    ensures EndPos(ms + [m]) == StartPos(EndPos(ms), Stride(m)) + Stride(m)
  {
    assert (ms + [m])[..|ms|] == ms;
  }

  lemma {:induction false} EndPosGrowsAlong(a: seq<Msg>, b: seq<Msg>)
    ensures EndPos(a) <= EndPos(a + b)
    decreases |b|
  {
    hide StartPos;
    if b == [] {
      assert a + b == a;
    } else {
      var init, m := b[..|b| - 1], b[|b| - 1];
      EndPosGrowsAlong(a, init);
      assert a + b == a + init + [m];
      EndPosOneMore(a + init, m);
      StartPosIsAbove(EndPos(a + init), Stride(m));
    }
  }

  /** A step of a safe run succeeds exactly when what it writes, if anything, still fits the writer's slots. */
  lemma StepEndsIff(c: Channel, op: Op, sent: seq<Msg>, rest: seq<Msg>)
    requires InStep(c, sent, rest) && c.side.localTxPos == EndPos(sent) <= c.side.avail * SLOT_SIZE
    requires Fits(op) && Safe(c, op)
    ensures Step(c, op).Some? <==> EndPos(sent + WrittenBy(op)) <= c.side.avail * SLOT_SIZE
    ensures Step(c, op).Some? ==>
              && Step(c, op).value.side.localTxPos == EndPos(sent + WrittenBy(op))
              && Step(c, op).value.side.avail == c.side.avail
  {
    hide Queue;
    hide Parse;
    hide StartPos;
    match op
    case Write(m) =>
      QueueEnds(c.writer, c.side, m);
      EndPosOneMore(sent, m);
    case Poll =>
      PollKeepsInStep(c, sent, rest);
      assert sent + [] == sent;
  }

  /** Only the capacity of the writer's slots ends a safe run, never the reader. */
  lemma {:induction false} RunEndsIff(c: Channel, ops: seq<Op>, sent: seq<Msg>, rest: seq<Msg>)
    requires InStep(c, sent, rest) && c.side.localTxPos == EndPos(sent) <= c.side.avail * SLOT_SIZE
    requires (forall op | op in ops :: Fits(op)) && SafeRun(c, ops)
    ensures Run(c, ops).Some? <==> EndPos(sent + Written(ops)) <= c.side.avail * SLOT_SIZE
    decreases |ops|
  {
    hide InStep;
    hide Step;
    hide Safe;
    hide WriterOk;
    hide WrittenBy;
    hide EndPos;
    if ops == [] {
      assert sent + [] == sent;
    } else {
      var sent1 := sent + WrittenBy(ops[0]);
      assert sent1 + Written(ops[1..]) == sent + Written(ops);
      StepEndsIff(c, ops[0], sent, rest);
      if Step(c, ops[0]).Some? {
        var rest1 := StepKeepsInStep(c, ops[0], sent, rest);
        RunEndsIff(Step(c, ops[0]).value, ops[1..], sent1, rest1);
      } else {
        EndPosGrowsAlong(sent1, Written(ops[1..]));
      }
    }
  }

  /** The start of a run: nothing written, nothing read, any contents of the slots. */
  predicate Fresh(c: Channel) {
    WriterOk(c.side) && c.side.localTxPos == 0 && c.reader == Reader(0, None) && c.parsed == []
  }

  /**
   * Main result. After any interleaving of queued messages and polls the messages parsed, padding aside, are a
   * prefix of those queued; after a poll they are all of them, and the reader stands at the published position. Such
   * a run goes on exactly as long as the messages, with their paddings, fit the writer's slots. With the code as
   * written this holds of the runs whose messages need no padding, and that enter no slot already full.
   */
  lemma RoundTripHolds(c: Channel, ops: seq<Op>)
    requires Fresh(c) && (forall op | op in ops :: Fits(op)) && SafeRun(c, ops)
    ensures Run(c, ops).Some? <==> EndPos(Written(ops)) <= c.side.avail * SLOT_SIZE
    ensures var r := Run(c, ops);
            r.Some? ==>
              && NonPadding(r.value.parsed) <= NonPadding(Written(ops))
              && (ops != [] && ops[|ops| - 1].Poll? ==>
                    && NonPadding(r.value.parsed) == NonPadding(Written(ops))
                    && r.value.reader == ReaderAt(r.value.side.queue, r.value.side.txPos))
  {
    assert InStep(c, [], []);
    hide InStep;
    hide Run;
    hide SafeRun;
    hide NonPadding;
    hide EndPos;
    assert [] + Written(ops) == Written(ops);
    RunEndsIff(c, ops, [], []);
    var rest := RunKeepsInStep(c, ops, [], []);
    var r := Run(c, ops);
    if r.Some? {
      NonPaddingAppend(r.value.parsed, rest);
      if rest == [] {
        TilesOrdered(Frames(r.value.side.mem, r.value.side.queue), r.value.reader.rxPos, r.value.side.txPos, rest);
        assert r.value.parsed + rest == r.value.parsed;
      }
    }
  }

  /** As documented, no step can go wrong. */
  lemma {:induction false} DocumentedIsSafe(c: Channel, ops: seq<Op>)
    requires WriterOk(c.side) && (forall op | op in ops :: Fits(op)) && c.writer.AsDocumented? && c.lookup.AsDocumented?
    ensures SafeRun(c, ops)
    decreases |ops|
  {
    hide Queue;
    hide Parse;
    hide WriterOk;
    if ops != [] && Step(c, ops[0]).Some? {
      DocumentedIsSafe(Step(c, ops[0]).value, ops[1..]);
    }
  }
}
