/**
 * A run of the host whose slot handler looks up fresh slots as written, and what it makes of a slot that the other
 * side has filled before it is entered.
 */
module MissedFrame {
  import opened Config
  import opened SlotMessage
  import opened Slots
  import opened Transport
  import opened Service
  import opened State
  import Calls = LostOpen
  import opened EndToEnd

  /** A data message from the other side's port `remote` to the first service. */
  function PeerData(remote: nat, data: seq<byte>): Msg
    requires remote < 0x1000
  {
    Msg(MakeMsgId(DATA, remote, 0), data)
  }

  /** Connect, with the other side's answer in between, and create a service. */
  function FirstCalls(open: seq<byte>): seq<Op> {
    [Client(Sys.Connect), PeerWrite(Calls.ConnectMessage()), PollSlots, Client(Sys.Connect), Client(Sys.Create(open))]
  }

  /** The other side acknowledges it, and writes two messages before the slot handler is polled again. */
  function Answers(remote: nat, first: seq<byte>, second: seq<byte>): seq<Op>
    requires remote < 0x1000
  {
    [PeerWrite(Calls.Ack(remote)), PeerWrite(PeerData(remote, first)), PeerWrite(PeerData(remote, second)), PollSlots]
  }

  function FilledSlot(open: seq<byte>, remote: nat, first: seq<byte>, second: seq<byte>): seq<Op>
    requires remote < 0x1000
  {
    FirstCalls(open) + Answers(remote, first, second)
  }

  // ----- the slots -----

  /** The end of the third slot of the queue is zero. */
  predicate TailIsZero(s: Side)
    requires WriterOk(s) && s.avail >= 3
  {
    s.mem[s.queue[2]][SLOT_SIZE - HEADER_SIZE..] == [0, 0, 0, 0, 0, 0, 0, 0]
  }

  lemma ZeroHeaderReads(slot: seq<byte>)
    requires |slot| == SLOT_SIZE && slot[SLOT_SIZE - HEADER_SIZE..] == [0, 0, 0, 0, 0, 0, 0, 0]
    ensures MessageAt(slot, SLOT_SIZE - HEADER_SIZE) == Some(Msg(0, []))
  {
    var tail := slot[SLOT_SIZE - HEADER_SIZE..];
    var at := SLOT_SIZE - HEADER_SIZE;
    assert slot[at..at + 4] == tail[..4] == [0, 0, 0, 0];
    assert slot[at + 4..at + 8] == tail[4..] == [0, 0, 0, 0];
    ZeroWord();
    assert slot[at + HEADER_SIZE..at + HEADER_SIZE + 0] == [];
  }

  lemma ZeroWord()
    ensures FromLE([0, 0, 0, 0]) == 0
  {
    assert FromLE([0, 0]) == 0 && FromLE([0, 0, 0]) == 0;
  }

  /** Storing below the end of the third slot leaves that alone. */
  lemma StoreKeepsTail(mem: Memory, queue: SlotQueue, avail: nat, pos: nat, id: u32, size: u32, data: seq<byte>)
    requires QueueOk(mem, queue, avail) && avail >= 3
    requires pos % SLOT_SIZE + HEADER_SIZE + |data| <= SLOT_SIZE
    requires pos + HEADER_SIZE + |data| <= 3 * SLOT_SIZE - HEADER_SIZE
    ensures 0 < PositionOf(queue, pos).index < |mem|
    ensures StoreMessage(mem, PositionOf(queue, pos), id, size, data)[queue[2]][SLOT_SIZE - HEADER_SIZE..]
         == mem[queue[2]][SLOT_SIZE - HEADER_SIZE..]
  {
    var k := pos / SLOT_SIZE;
    assert k < 3 && k % SLOT_QUEUE_LEN == k;
    if k == 2 {
      var slot, at, bytes := mem[queue[2]], pos % SLOT_SIZE, Header(id, size) + data;
      var r := Splice(slot, at, bytes);
      var n := at + |bytes|;
      assert r[SLOT_SIZE - HEADER_SIZE..] == r[n..][SLOT_SIZE - HEADER_SIZE - n..];
      assert slot[SLOT_SIZE - HEADER_SIZE..] == slot[n..][SLOT_SIZE - HEADER_SIZE - n..];
    } else {
      assert queue[k] != queue[2];
    }
  }

  /** So does queueing a message that ends below it. */
  lemma QueueKeepsTail(s: Side, m: Msg)
    requires WriterOk(s) && s.avail >= 3 && TailIsZero(s) && Stride(m) <= SLOT_SIZE
    requires StartPos(s.localTxPos, Stride(m)) + Stride(m) <= 3 * SLOT_SIZE - HEADER_SIZE
    ensures Queue(AsDocumented, s, m).Some?
    ensures var r := Queue(AsDocumented, s, m).value;
            && WriterOk(r) && r.queue == s.queue && r.avail == s.avail && TailIsZero(r)
            && r.localTxPos == StartPos(s.localTxPos, Stride(m)) + Stride(m)
  {
    hide Queue;
    hide StoreMessage;
    hide MemoryPadded;
    var tx, pos := s.localTxPos, StartPos(s.localTxPos, Stride(m));
    RT.QueueEnds(AsDocumented, s, m);
    QueueEffect(AsDocumented, s, m);
    QueueKeepsWriterOk(AsDocumented, s, m);
    RT.PaddedMemoryIs(AsDocumented, s, m);
    StartPosFits(tx, Stride(m), s.avail);
    if pos != tx {
      StoreKeepsTail(s.mem, s.queue, s.avail, tx, 0, SpaceLeft(tx) - HEADER_SIZE, []);
    }
    StoreKeepsTail(MemoryPadded(AsDocumented, s, Stride(m)), s.queue, s.avail, pos, m.id, |m.data|, m.data);
  }

  /** A message that fits the slot in hand is the next frame. */
  lemma WrittenHere(s: Side, m: Msg)
    requires WriterOk(s) && Stride(m) <= SpaceLeft(s.localTxPos) && Queue(AsDocumented, s, m).Some?
    ensures var r := Queue(AsDocumented, s, m).value;
            && SameBelow(Frames(s.mem, s.queue), Frames(r.mem, s.queue), s.localTxPos)
            && Frames(r.mem, s.queue)(s.localTxPos) == Some(m) && FitsSlot(s.localTxPos, m)
  {
    hide Queue;
    hide SameBelow;
    hide ReadMessage;
    hide WriterOk;
    var pads := RT.QueueAddsFrame(AsDocumented, s, m);
    assert pads + [m] == [m];
  }

  /** A message that does not follows a frame of padding that fills the slot. */
  lemma WrittenAfterPadding(s: Side, m: Msg) returns (pad: Msg)
    requires WriterOk(s) && SpaceLeft(s.localTxPos) < Stride(m) <= SLOT_SIZE && Queue(AsDocumented, s, m).Some?
    ensures var r := Queue(AsDocumented, s, m).value;
            && SameBelow(Frames(s.mem, s.queue), Frames(r.mem, s.queue), s.localTxPos)
            && Frames(r.mem, s.queue)(s.localTxPos) == Some(pad) && FitsSlot(s.localTxPos, pad)
            && IsPadding(pad) && Stride(pad) == SpaceLeft(s.localTxPos)
  {
    hide SameBelow;
    hide ReadMessage;
    hide IsPadding;
    hide Tiles;
    hide Queue;
    hide WriterOk;
    RT.QueueEnds(AsDocumented, s, m);
    var pads := RT.QueueAddsFrame(AsDocumented, s, m);
    pad := pads[0];
    assert pads + [m] == [pad, m];
    var r := Queue(AsDocumented, s, m).value;
    TwoTiles(Frames(r.mem, s.queue), s.localTxPos, r.localTxPos, pad, m);
  }

  lemma TwoTiles(read: Stream, from: nat, to: nat, a: Msg, b: Msg)
    requires Tiles(read, from, to, [a, b])
    ensures read(from) == Some(a) && FitsSlot(from, a) && from + Stride(a) + Stride(b) == to
  {
    assert [a, b][1..] == [b] && [b][1..] == [];
    assert Tiles(read, from + Stride(a), to, [b]);
    assert Tiles(read, from + Stride(a) + Stride(b), to, []);
  }

  /** What the slots hold once the acknowledgement and both messages are written behind a CONNECT. */
  predicate Holds(s: Side, ack: Msg, pad: Msg, second: Msg) {
    && WriterOk(s) && s.avail >= 3 && s.localTxPos == 3 * SLOT_SIZE - HEADER_SIZE && TailIsZero(s)
    && var f := Frames(s.mem, s.queue);
       && f(8) == Some(ack) && Stride(ack) == 8
       && f(16) == Some(pad) && IsPadding(pad) && Stride(pad) == SLOT_SIZE - 16
       && f(2 * SLOT_SIZE) == Some(second) && Stride(second) == SLOT_SIZE - HEADER_SIZE
  }

  lemma WritesHold(s: Side, ack: Msg, first: Msg, second: Msg) returns (s1: Side, s2: Side, s3: Side, pad: Msg)
    requires WriterOk(s) && s.avail >= 3 && s.localTxPos == 8 && TailIsZero(s)
    requires Stride(ack) == 8 && Stride(first) == SLOT_SIZE && Stride(second) == SLOT_SIZE - HEADER_SIZE
    ensures Queue(AsDocumented, s, ack) == Some(s1)
    ensures WriterOk(s1) && Queue(AsDocumented, s1, first) == Some(s2)
    ensures WriterOk(s2) && Queue(AsDocumented, s2, second) == Some(s3)
    ensures s3.queue == s.queue && Holds(s3, ack, pad, second)
  {
    hide Queue;
    hide WriterOk;
    hide TailIsZero;
    hide IsPadding;
    hide ReadMessage;
    QueueKeepsTail(s, ack);
    s1 := Queue(AsDocumented, s, ack).value;
    QueueKeepsTail(s1, first);
    s2 := Queue(AsDocumented, s1, first).value;
    QueueKeepsTail(s2, second);
    s3 := Queue(AsDocumented, s2, second).value;
    WrittenHere(s, ack);
    pad := WrittenAfterPadding(s1, first);
    WrittenHere(s2, second);
  }

  /** A reader that takes the end of the third slot for the end of another, which is at `pos`. */
  function AtTail(s: Side, pos: nat): Reader
    requires pos >= HEADER_SIZE
  {
    Reader(pos - HEADER_SIZE, Some(SlotPosition(s.queue[2], SLOT_SIZE - HEADER_SIZE)))
  }

  /** A reader entering the second or the third slot finds the frame of the third. */
  lemma EntryReadsSecond(s: Side, ack: Msg, pad: Msg, second: Msg, rx: nat)
    requires Holds(s, ack, pad, second) && rx in {SLOT_SIZE, 2 * SLOT_SIZE}
    ensures ParseOne(AsWritten, s.mem, s.queue, Reader(rx, None), s.txPos) == Some((AtTail(s, rx + SLOT_SIZE), second))
  {
    hide IsPadding;
    hide ReadMessage;
    hide TailIsZero;
    assert FreshSlot(AsWritten, s.queue, rx, s.txPos) == PositionOf(s.queue, 2 * SLOT_SIZE);
  }

  /** Behind it the slot is zero, which reads as padding. */
  lemma ZeroReadsAsPadding(s: Side, ack: Msg, pad: Msg, second: Msg)
    requires Holds(s, ack, pad, second)
    ensures ParseOne(AsWritten, s.mem, s.queue, AtTail(s, 2 * SLOT_SIZE), s.txPos)
         == Some((Reader(2 * SLOT_SIZE, None), Msg(0, [])))
    ensures IsPadding(Msg(0, []))
  {
    hide MessageAt;
    ZeroHeaderReads(s.mem[s.queue[2]]);
    assert Stride(Msg(0, [])) == HEADER_SIZE;
  }

  /** The loop reads `ms`, one after the other, and then stands at `tx`. */
  predicate Reads(mem: Memory, queue: SlotQueue, rs: seq<Reader>, ms: seq<Msg>, tx: nat) {
    && |rs| == |ms| + 1 && rs[|ms|].rxPos == tx
    && forall k | 0 <= k < |ms| ::
         rs[k].rxPos < tx && ParseOne(AsWritten, mem, queue, rs[k], tx) == Some((rs[k + 1], ms[k]))
  }

  lemma {:induction false} ParseFollows(mem: Memory, queue: SlotQueue, rs: seq<Reader>, ms: seq<Msg>, tx: nat)
    requires Reads(mem, queue, rs, ms, tx)
    ensures Parse(AsWritten, mem, queue, rs[0], tx) == Some((rs[|ms|], ms))
    decreases |ms|
  {
    hide ParseOne;
    if ms != [] {
      ParseFollows(mem, queue, rs[1..], ms[1..], tx);
      assert [ms[0]] + ms[1..] == ms;
    }
  }

  /** The slot handler misses the frame that fills the second slot, and reads the one after it twice. */
  lemma ReadsTwice(s: Side, ack: Msg, pad: Msg, second: Msg)
    requires Holds(s, ack, pad, second)
    ensures Parse(AsWritten, s.mem, s.queue, ReaderAt(s.queue, 8), s.txPos)
         == Some((ReaderAt(s.queue, s.txPos), [ack, pad, second, Msg(0, []), second]))
  {
    hide IsPadding;
    hide ReadMessage;
    hide TailIsZero;
    var tx := s.txPos;
    RT.ParseOneReads(AsWritten, s.mem, s.queue, 8, tx, ack);
    RT.ParseOneReads(AsWritten, s.mem, s.queue, 16, tx, pad);
    EntryReadsSecond(s, ack, pad, second, SLOT_SIZE);
    ZeroReadsAsPadding(s, ack, pad, second);
    EntryReadsSecond(s, ack, pad, second, 2 * SLOT_SIZE);
    hide ParseOne;
    hide Frames;
    hide Stride;
    var rs := [ReaderAt(s.queue, 8), ReaderAt(s.queue, 16), Reader(SLOT_SIZE, None), AtTail(s, 2 * SLOT_SIZE),
               Reader(2 * SLOT_SIZE, None), AtTail(s, 3 * SLOT_SIZE)];
    var ms := [ack, pad, second, Msg(0, []), second];
    forall k | 0 <= k < |ms|
      ensures rs[k].rxPos < tx && ParseOne(AsWritten, s.mem, s.queue, rs[k], tx) == Some((rs[k + 1], ms[k]))
    {
      assert k == 0 || k == 1 || k == 2 || k == 3 || k == 4;
    }
    ParseFollows(s.mem, s.queue, rs, ms, tx);
  }

  // ----- the host -----

  /** The first service is open, and `remote` is the port it is connected to. */
  ghost predicate Serving(h: Host, remote: nat)
    ensures Serving(h, remote) ==> Aligned(h)
  {
    && Matched(h) && |h.y.st.services| == MAX_SERVICES && h.y.st.services[0].Some? && h.y.st.unused > 0
    && h.y.st.services[0].value.state == ServiceState.OPEN && h.y.st.services[0].value.remoteport == remote
  }

  /** A data frame for the first service, from the port it is connected to. */
  predicate IsFirsts(m: Msg, remote: nat) {
    MsgType(m.id) == Some(DATA) && DstPort(m.id) == 0 && SrcPort(m.id) == remote
  }

  lemma FrameHandled(h: Host, m: Msg, remote: nat)
    requires Serving(h, remote) && (IsPadding(m) || IsFirsts(m, remote))
    ensures HandleOne(h, m).Some?
    ensures var r := HandleOne(h, m).value;
            && Serving(r, remote)
            && MessagesFor(r.log, 0) == MessagesFor(h.log, 0) + (if IsPadding(m) then [] else [m])
  {
    assert Dispatch(h.y.st, m).Dispatched? && Dispatch(h.y.st, m).st == h.y.st by {
      hide MsgType;
      hide SrcPort;
      hide DstPort;
      hide WriterOk;
    }
    hide Dispatch;
    hide Matched;
    HandleOneMatches(h, m);
    MessagesOneMore(h.log, Seen(m, h.y.st.services), 0);
  }

  lemma {:induction false} FramesHandled(h: Host, ms: seq<Msg>, remote: nat)
    requires Serving(h, remote) && forall m | m in ms :: IsPadding(m) || IsFirsts(m, remote)
    ensures HandleAll(h, ms).Some?
    ensures var r := HandleAll(h, ms).value;
            Serving(r, remote) && MessagesFor(r.log, 0) == MessagesFor(h.log, 0) + RT.NonPadding(ms)
    decreases |ms|
  {
    hide HandleOne;
    hide Serving;
    hide IsPadding;
    hide IsFirsts;
    hide MessagesFor;
    hide Aligned;
    if ms == [] {
      assert MessagesFor(h.log, 0) + [] == MessagesFor(h.log, 0);
    } else {
      FrameHandled(h, ms[0], remote);
      var h1 := HandleOne(h, ms[0]).value;
      FramesHandled(h1, ms[1..], remote);
    }
  }

  /** A frame that is no data changes the state as its dispatch does, and nothing else. */
  lemma QuietHandled(h: Host, m: Msg)
    requires Matched(h) && Sys.ReceiveStep(h.y, m).Some? && MsgType(m.id) != Some(DATA)
    ensures var r := h.(y := Sys.ReceiveStep(h.y, m).value, log := h.log + [Seen(m, h.y.st.services)]);
            HandleOne(h, m) == Some(r) && Matched(r) && MessagesFor(r.log, 0) == MessagesFor(h.log, 0)
  {
    hide Dispatch;
    hide Matched;
    hide MsgType;
    CallbackIsForService(h.y.st, m);
    HandleOneMatches(h, m);
    MessagesOneMore(h.log, Seen(m, h.y.st.services), 0);
  }

  /** One call leads from `a` to `b`. */
  predicate Goes(a: Host, op: Op, b: Host) {
    Aligned(a) && Fits(op) && Step(a, op) == Some(b) && Aligned(b)
  }

  lemma {:induction false} RunGoes(hs: seq<Host>, ops: seq<Op>)
    requires |hs| == |ops| + 1 && Aligned(hs[0]) && forall op | op in ops :: Fits(op)
    requires forall k | 0 <= k < |ops| :: Goes(hs[k], ops[k], hs[k + 1])
    ensures Run(hs[0], ops) == Some(hs[|ops|])
    decreases |ops|
  {
    hide Step;
    hide Aligned;
    if ops != [] {
      assert Goes(hs[0], ops[0], hs[1]);
      forall k | 0 <= k < |ops[1..]| ensures Goes(hs[1..][k], ops[1..][k], hs[1..][k + 1]) {
        assert Goes(hs[k + 1], ops[k + 1], hs[k + 2]);
      }
      hide Goes;
      RunGoes(hs[1..], ops[1..]);
    }
  }

  lemma ClientGoes(h: Host, op: Sys.Op, y: Sys.System)
    requires Matched(h) && Sys.Fits(op) && !op.Receive? && Sys.Step(h.y, op) == Some(y)
    requires y.st.unused == h.y.st.unused
    ensures Goes(h, Client(op), h.(y := y)) && Matched(h.(y := y))
  {
    hide Sys.Step;
    Life.StepKeepsLife(h.y, op);
    SystemIsSeparate(h, y);
    hide Matched;
    hide Aligned;
  }

  lemma CreateGoes(h: Host, open: seq<byte>, y: Sys.System)
    requires Matched(h) && |open| == Sys.OPEN_PAYLOAD_SIZE && Sys.CreateStep(h.y, open) == Some(y)
    requires y.st.unused == h.y.st.unused + 1
    ensures var r := h.(y := y, w := N.Step(h.w, N.AddUser(true)).value);
            Goes(h, Client(Sys.Create(open)), r) && Matched(r)
  {
    hide Sys.CreateStep;
    hide N.Step;
    hide Matched;
    Life.StepKeepsLife(h.y, Sys.Create(open));
    AddUserMatches(h, y, true);
    hide Aligned;
    hide Life.LifeOk;
  }

  lemma WriteGoes(h: Host, m: Msg, side: Side)
    requires Matched(h) && Stride(m) <= SLOT_SIZE && Queue(h.chan.writer, h.chan.side, m) == Some(side)
    ensures var r := h.(chan := h.chan.(side := side)); Goes(h, PeerWrite(m), r) && Matched(r)
  {
    hide Queue;
    QueueKeepsWriterOk(h.chan.writer, h.chan.side, m);
    ChannelIsSeparate(h, h.chan.(side := side));
    hide Matched;
    hide Aligned;
  }

  lemma PollGoes(h: Host, reader: Reader, ms: seq<Msg>)
    requires Matched(h)
    requires Parse(h.chan.lookup, h.chan.side.mem, h.chan.side.queue, h.chan.reader, h.chan.side.txPos)
          == Some((reader, ms))
    requires Matched(h.(chan := h.chan.(reader := reader, parsed := h.chan.parsed + ms)))
    requires HandleAll(h.(chan := h.chan.(reader := reader, parsed := h.chan.parsed + ms)), ms).Some?
    ensures var r := HandleAll(h.(chan := h.chan.(reader := reader, parsed := h.chan.parsed + ms)), ms).value;
            Goes(h, PollSlots, r) && Matched(r)
  {
    HandleAllMatches(h.(chan := h.chan.(reader := reader, parsed := h.chan.parsed + ms)), ms);
    hide Matched;
    hide HandleAll;
    hide Parse;
    hide Aligned;
  }

  // ----- call after call -----

  /** The CONNECT has been read, and the tail of the third slot is still zero. */
  predicate ConnectRead(chan: RT.Channel) {
    && WriterOk(chan.side) && chan.side.avail >= 3 && chan.side.localTxPos == 8 && TailIsZero(chan.side)
    && chan.writer.AsDocumented? && chan.lookup.AsWritten?
    && chan.reader == ReaderAt(chan.side.queue, 8) && chan.parsed == [Calls.ConnectMessage()]
  }

  lemma ConnectReads(s: Side) returns (s1: Side)
    requires WriterOk(s) && s.localTxPos == 0 && s.avail >= 3 && TailIsZero(s)
    ensures Stride(Calls.ConnectMessage()) == 8 && Queue(AsDocumented, s, Calls.ConnectMessage()) == Some(s1)
    ensures WriterOk(s1) && s1.queue == s.queue && s1.avail == s.avail && s1.localTxPos == 8 && TailIsZero(s1)
    ensures Parse(AsWritten, s1.mem, s1.queue, Reader(0, None), s1.txPos)
         == Some((ReaderAt(s1.queue, 8), [Calls.ConnectMessage()]))
  {
    hide Queue;
    hide ReadMessage;
    hide MakeMsgId;
    hide TailIsZero;
    var m := Calls.ConnectMessage();
    QueueKeepsTail(s, m);
    s1 := Queue(AsDocumented, s, m).value;
    WrittenHere(s, m);
    RT.ParseOneReads(AsWritten, s1.mem, s1.queue, 0, 8, m);
    hide ParseOne;
    ParseFollows(s1.mem, s1.queue, [ReaderAt(s1.queue, 0), ReaderAt(s1.queue, 8)], [m], 8);
  }

  /** The states the run starts from. */
  predicate Starts(h: Host)
    ensures Starts(h) ==> Aligned(h)
  {
    && Initial(h) && Aligned(h) && h.y.st.out.avail >= 2
    && h.chan.writer.AsDocumented? && h.chan.lookup.AsWritten?
    && h.chan.side.avail >= 3 && TailIsZero(h.chan.side)
  }

  /** A poll that finds the CONNECT. */
  lemma ConnectPolled(h: Host, y: Sys.System) returns (h1: Host)
    requires Matched(h) && Sys.ReceiveStep(h.y, Calls.ConnectMessage()) == Some(y) && h.log == []
    requires h.chan.reader == Reader(0, None) && h.chan.parsed == [] && h.chan.side.avail >= 3
    requires h.chan.side.localTxPos == 8 && TailIsZero(h.chan.side)
    requires h.chan.writer.AsDocumented? && h.chan.lookup.AsWritten?
    requires Parse(AsWritten, h.chan.side.mem, h.chan.side.queue, Reader(0, None), h.chan.side.txPos)
          == Some((ReaderAt(h.chan.side.queue, 8), [Calls.ConnectMessage()]))
    ensures Goes(h, PollSlots, h1) && Matched(h1) && h1.y == y && ConnectRead(h1.chan) && MessagesFor(h1.log, 0) == []
  {
    hide Parse;
    hide Goes;
    hide MakeMsgId;
    hide TailIsZero;
    var m, reader := Calls.ConnectMessage(), ReaderAt(h.chan.side.queue, 8);
    MsgIdRoundTrip(CONNECT, 0, 0);
    hide MsgType;
    assert [] + [m] == [m];
    var read := h.(chan := h.chan.(reader := reader, parsed := h.chan.parsed + [m]));
    ChannelIsSeparate(h, read.chan);
    QuietHandled(read, m);
    hide HandleOne;
    hide Sys.ReceiveStep;
    hide Matched;
    assert [m][1..] == [];
    PollGoes(h, reader, [m]);
    h1 := HandleAll(read, [m]).value;
    assert h1 == HandleOne(read, m).value;
  }

  lemma Connects(h: Host) returns (h1: Host, h2: Host, h3: Host, h4: Host)
    requires Starts(h)
    ensures Goes(h, Client(Sys.Connect), h1) && Goes(h1, PeerWrite(Calls.ConnectMessage()), h2)
    ensures Goes(h2, PollSlots, h3) && Goes(h3, Client(Sys.Connect), h4)
    ensures Matched(h4) && Calls.Ready(h4.y) && ConnectRead(h4.chan) && MessagesFor(h4.log, 0) == []
  {
    InitialLinks(h);
    var y1, y2, y3 := Calls.Connects(h.y);
    var s1 := ConnectReads(h.chan.side);
    assert h.log == [] && Matched(h) && h.y.st.unused == 0;
    NoneAdded(h.y, y1, y2, y3);
    hide Goes;
    hide Initial;
    hide Linked;
    hide Matched;
    hide Aligned;
    hide ConnectRead;
    hide Queue;
    hide Parse;
    hide Calls.Ready;
    hide Sys.Step;
    ClientGoes(h, Sys.Connect, y1);
    h1 := h.(y := y1);
    WriteGoes(h1, Calls.ConnectMessage(), s1);
    h2 := h1.(chan := h1.chan.(side := s1));
    h3 := ConnectPolled(h2, y2);
    ClientGoes(h3, Sys.Connect, y3);
    h4 := h3.(y := y3);
  }

  /** No service is added on the way. */
  lemma NoneAdded(y: Sys.System, y1: Sys.System, y2: Sys.System, y3: Sys.System)
    requires Calls.Leads(y, Sys.Connect, y1) && Calls.Leads(y1, Sys.Receive(Calls.ConnectMessage()), y2)
    requires Calls.Leads(y2, Sys.Connect, y3) && Calls.Ready(y3)
    ensures y1.st.unused == y2.st.unused == y3.st.unused == 0
    ensures Sys.Step(y, Sys.Connect) == Some(y1) && Sys.Step(y2, Sys.Connect) == Some(y3)
    ensures Sys.ReceiveStep(y1, Calls.ConnectMessage()) == Some(y2)
  {
    hide Life.LifeOk;
    hide Sys.ConnectStep;
    hide Sys.ReceiveStep;
    Life.StepKeepsLife(y1, Sys.Receive(Calls.ConnectMessage()));
    Life.StepKeepsLife(y2, Sys.Connect);
  }

  /** The first service, as it is created. */
  function FirstService(): Service {
    NewService(MAX_SERVICES).(localport := 0, state := OPENING)
  }

  lemma Creates(h: Host, open: seq<byte>) returns (h1: Host)
    requires Matched(h) && Calls.Ready(h.y) && |open| == Sys.OPEN_PAYLOAD_SIZE
    ensures Goes(h, Client(Sys.Create(open)), h1) && Matched(h1) && h1.chan == h.chan && h1.log == h.log
    ensures Calls.FirstOnly(h1.y, FirstService(), Sys.WaitOpen)
  {
    hide Life.LifeOk;
    hide Sys.CreateStep;
    hide Goes;
    Calls.Creating(h.y, open);
    var y := Sys.CreateStep(h.y, open).value;
    Life.StepKeepsLife(h.y, Sys.Create(open));
    CreateGoes(h, open, y);
    hide Matched;
    h1 := h.(y := y, w := N.Step(h.w, N.AddUser(true)).value);
  }

  /** The three messages of the other side. */
  lemma Writes(h: Host, ack: Msg, first: Msg, second: Msg) returns (h1: Host, h2: Host, h3: Host, pad: Msg)
    requires Matched(h) && ConnectRead(h.chan)
    requires Stride(ack) == 8 && Stride(first) == SLOT_SIZE && Stride(second) == SLOT_SIZE - HEADER_SIZE
    ensures Goes(h, PeerWrite(ack), h1) && Goes(h1, PeerWrite(first), h2) && Goes(h2, PeerWrite(second), h3)
    ensures Matched(h3) && h3.y == h.y && h3.log == h.log
    ensures h3.chan == h.chan.(side := h3.chan.side) && h3.chan.side.queue == h.chan.side.queue
    ensures Holds(h3.chan.side, ack, pad, second)
    ensures h3.chan.lookup.AsWritten? && h3.chan.reader == ReaderAt(h3.chan.side.queue, 8)
  {
    var s1, s2, s3, pad' := WritesHold(h.chan.side, ack, first, second);
    pad := pad';
    hide Goes;
    hide Matched;
    hide Aligned;
    hide Queue;
    hide Holds;
    hide WriterOk;
    WriteGoes(h, ack, s1);
    h1 := h.(chan := h.chan.(side := s1));
    WriteGoes(h1, first, s2);
    h2 := h1.(chan := h1.chan.(side := s2));
    WriteGoes(h2, second, s3);
    h3 := h2.(chan := h2.chan.(side := s3));
  }

  /** The acknowledgement opens the service. */
  lemma AckServes(h: Host, remote: nat)
    requires Matched(h) && Calls.FirstOnly(h.y, FirstService(), Sys.WaitOpen) && remote < 0x1000
    ensures HandleOne(h, Calls.Ack(remote)).Some?
    ensures var r := HandleOne(h, Calls.Ack(remote)).value;
            Serving(r, remote) && MessagesFor(r.log, 0) == MessagesFor(h.log, 0)
  {
    hide Sys.ReceiveStep;
    hide Matched;
    hide Aligned;
    hide Life.LifeOk;
    MsgIdRoundTrip(OPENACK, remote, 0);
    hide MakeMsgId;
    hide MsgType;
    hide HandleOne;
    hide MessagesFor;
    Calls.Opening(h.y, FirstService(), remote);
    QuietHandled(h, Calls.Ack(remote));
    var y := Sys.ReceiveStep(h.y, Calls.Ack(remote)).value;
    assert |y.st.services| == MAX_SERVICES by { FilledTable(y); }
  }

  lemma FilledTable(y: Sys.System)
    requires Life.LifeOk(y)
    ensures |y.st.services| == MAX_SERVICES
  {
  }

  /** What the last poll reads is handed out. */
  lemma LastHandled(h: Host, remote: nat, pad: Msg, second: Msg)
    requires Matched(h) && Calls.FirstOnly(h.y, FirstService(), Sys.WaitOpen) && remote < 0x1000
    requires MessagesFor(h.log, 0) == [] && IsPadding(pad) && IsPadding(Msg(0, [])) && IsFirsts(second, remote)
    ensures var ms := [Calls.Ack(remote), pad, second, Msg(0, []), second];
            && HandleAll(h, ms).Some? && |HandleAll(h, ms).value.w.accepted| > 0
            && HandleAll(h, ms).value.w.accepted[0] == [second, second]
  {
    hide HandleOne;
    hide Matched;
    hide Aligned;
    hide MessagesFor;
    hide Serving;
    hide Calls.FirstOnly;
    AckServes(h, remote);
    var h1, rest := HandleOne(h, Calls.Ack(remote)).value, [pad, second, Msg(0, []), second];
    FramesHandled(h1, rest, remote);
    assert [Calls.Ack(remote), pad, second, Msg(0, []), second][1..] == rest;
    PaddingDropped(pad, second);
    ServedAccepts(HandleAll(h1, rest).value, remote);
  }

  lemma ServedAccepts(h: Host, remote: nat)
    requires Serving(h, remote)
    ensures |h.w.accepted| > 0 && h.w.accepted[0] == MessagesFor(h.log, 0)
  {
    hide MessagesFor;
  }

  lemma PaddingDropped(pad: Msg, m: Msg)
    requires IsPadding(pad) && IsPadding(Msg(0, [])) && !IsPadding(m)
    ensures RT.NonPadding([pad, m, Msg(0, []), m]) == [m, m]
  {
    hide IsPadding;
    assert [pad, m, Msg(0, []), m] == [pad] + ([m] + ([Msg(0, [])] + [m]));
    assert [m][1..] == [] && [pad][1..] == [] && [Msg(0, [])][1..] == [];
    assert RT.NonPadding([m]) == [m] && RT.NonPadding([pad]) == [] && RT.NonPadding([Msg(0, [])]) == [];
    hide RT.NonPadding;
    RT.NonPaddingAppend([Msg(0, [])], [m]);
    RT.NonPaddingAppend([m], [Msg(0, [])] + [m]);
    RT.NonPaddingAppend([pad], [m] + ([Msg(0, [])] + [m]));
  }

  lemma LastPolled(h: Host, remote: nat, pad: Msg, second: Msg) returns (h1: Host)
    requires Matched(h) && Calls.FirstOnly(h.y, FirstService(), Sys.WaitOpen) && remote < 0x1000
    requires MessagesFor(h.log, 0) == [] && IsFirsts(second, remote)
    requires Holds(h.chan.side, Calls.Ack(remote), pad, second)
    requires h.chan.lookup.AsWritten? && h.chan.reader == ReaderAt(h.chan.side.queue, 8)
    ensures Goes(h, PollSlots, h1) && |h1.w.accepted| > 0 && h1.w.accepted[0] == [second, second]
  {
    hide Goes;
    hide Matched;
    hide Aligned;
    hide MessagesFor;
    hide Calls.FirstOnly;
    hide Calls.Ack;
    hide IsPadding;
    hide IsFirsts;
    hide HandleAll;
    hide Parse;
    var ack := Calls.Ack(remote);
    var ms, reader := [ack, pad, second, Msg(0, []), second], ReaderAt(h.chan.side.queue, h.chan.side.txPos);
    ReadsTwice(h.chan.side, ack, pad, second);
    ZeroReadsAsPadding(h.chan.side, ack, pad, second);
    var chan := h.chan.(reader := reader, parsed := h.chan.parsed + ms);
    ChannelIsSeparate(h, chan);
    LastHandled(h.(chan := chan), remote, pad, second);
    hide Holds;
    PollGoes(h, reader, ms);
    h1 := HandleAll(h.(chan := chan), ms).value;
  }

  lemma DataIsFirsts(remote: nat, data: seq<byte>)
    requires remote < 0x1000
    ensures IsFirsts(PeerData(remote, data), remote)
  {
    MsgIdRoundTrip(DATA, remote, 0);
  }

  /** The calls keep the sizes that callers have to keep. */
  lemma FilledSlotFits(open: seq<byte>, remote: nat, first: seq<byte>, second: seq<byte>)
    requires |open| == Sys.OPEN_PAYLOAD_SIZE && remote < 0x1000
    requires |first| == SLOT_SIZE - HEADER_SIZE && |second| == SLOT_SIZE - 2 * HEADER_SIZE
    ensures forall op | op in FilledSlot(open, remote, first, second) :: Fits(op)
  {
    hide MakeMsgId;
  }

  lemma {:induction false} RunAppend(h: Host, a: seq<Op>, b: seq<Op>)
    requires Aligned(h) && (forall op | op in a :: Fits(op)) && forall op | op in b :: Fits(op)
    ensures Run(h, a + b) == (if Run(h, a).None? then None else Run(Run(h, a).value, b))
    decreases |a|
  {
    hide Step;
    hide Aligned;
    hide Fits;
    if a == [] {
      assert a + b == b;
    } else {
      assert (a + b)[0] == a[0] && (a + b)[1..] == a[1..] + b;
      if Step(h, a[0]).Some? {
        RunAppend(Step(h, a[0]).value, a[1..], b);
      }
    }
  }

  /** After the first calls the service waits for its acknowledgement, and nothing has been for it yet. */
  ghost predicate Opened(h: Host)
    ensures Opened(h) ==> Aligned(h)
  {
    && Matched(h) && ConnectRead(h.chan) && MessagesFor(h.log, 0) == []
    && Calls.FirstOnly(h.y, FirstService(), Sys.WaitOpen)
  }

  lemma FirstCallsGo(h: Host, open: seq<byte>)
    requires Starts(h) && |open| == Sys.OPEN_PAYLOAD_SIZE && forall op | op in FirstCalls(open) :: Fits(op)
    ensures Run(h, FirstCalls(open)).Some? && Opened(Run(h, FirstCalls(open)).value)
  {
    hide Starts;
    hide Aligned;
    hide Matched;
    hide Goes;
    hide MessagesFor;
    hide ConnectRead;
    hide Calls.Ready;
    hide Calls.FirstOnly;
    hide Calls.ConnectMessage;
    hide Run;
    hide Fits;
    var h1, h2, h3, h4 := Connects(h);
    var h5 := Creates(h4, open);
    var hs, ops := [h, h1, h2, h3, h4, h5], FirstCalls(open);
    forall k | 0 <= k < |ops| ensures Goes(hs[k], ops[k], hs[k + 1]) {
      assert k == 0 || k == 1 || k == 2 || k == 3 || k == 4;
    }
    RunGoes(hs, ops);
  }

  lemma AnswersGo(h: Host, remote: nat, first: seq<byte>, second: seq<byte>)
    requires Opened(h) && remote < 0x1000
    requires |first| == SLOT_SIZE - HEADER_SIZE && |second| == SLOT_SIZE - 2 * HEADER_SIZE
    requires forall op | op in Answers(remote, first, second) :: Fits(op)
    ensures var r := Run(h, Answers(remote, first, second));
            && r.Some? && |r.value.w.accepted| > 0
            && r.value.w.accepted[0] == [PeerData(remote, second), PeerData(remote, second)]
  {
    hide Aligned;
    hide Matched;
    hide Goes;
    hide MessagesFor;
    hide ConnectRead;
    hide Calls.FirstOnly;
    hide Run;
    hide Fits;
    hide IsFirsts;
    hide MakeMsgId;
    DataIsFirsts(remote, second);
    var h1, h2, h3, pad := Writes(h, Calls.Ack(remote), PeerData(remote, first), PeerData(remote, second));
    hide Calls.Ack;
    hide PeerData;
    hide Holds;
    var h4 := LastPolled(h3, remote, pad, PeerData(remote, second));
    var hs, ops := [h, h1, h2, h3, h4], Answers(remote, first, second);
    forall k | 0 <= k < |ops| ensures Goes(hs[k], ops[k], hs[k + 1]) {
      assert k == 0 || k == 1 || k == 2 || k == 3;
    }
    RunGoes(hs, ops);
  }

  /**
   * A run of the host with its slot handler as written in which a data message is missed. The other side, which
   * writes as documented, answers CONNECT and OPEN, fills a slot with one message and writes the next message. Only
   * that one is handed to the service, and twice.
   */
  lemma FrameIsMissed(h: Host, open: seq<byte>, remote: nat, first: seq<byte>, second: seq<byte>)
    requires Starts(h) && |open| == Sys.OPEN_PAYLOAD_SIZE && remote < 0x1000
    requires |first| == SLOT_SIZE - HEADER_SIZE && |second| == SLOT_SIZE - 2 * HEADER_SIZE
    ensures forall op | op in FilledSlot(open, remote, first, second) :: Fits(op)
    ensures var ops := FilledSlot(open, remote, first, second);
            var r := Run(h, ops);
            && Written(ops) == [Calls.ConnectMessage(), Calls.Ack(remote), PeerData(remote, first),
                                PeerData(remote, second)]
            && r.Some? && |r.value.w.accepted| > 0
            && r.value.w.accepted[0] == [PeerData(remote, second), PeerData(remote, second)]
  {
    FilledSlotFits(open, remote, first, second);
    hide Starts;
    hide Opened;
    hide Run;
    hide Written;
    hide Fits;
    hide FirstCalls;
    hide Answers;
    hide PeerData;
    hide Calls.Ack;
    var ops := FilledSlot(open, remote, first, second);
    assert forall op | op in FirstCalls(open) + Answers(remote, first, second) :: Fits(op);
    FirstCallsGo(h, open);
    AnswersGo(Run(h, FirstCalls(open)).value, remote, first, second);
    RunAppend(h, FirstCalls(open), Answers(remote, first, second));
    FilledSlotWrites(open, remote, first, second);
  }

  lemma FilledSlotWrites(open: seq<byte>, remote: nat, first: seq<byte>, second: seq<byte>)
    requires remote < 0x1000
    ensures Written(FilledSlot(open, remote, first, second))
         == [Calls.ConnectMessage(), Calls.Ack(remote), PeerData(remote, first), PeerData(remote, second)]
  {
    hide PeerData;
    hide Calls.Ack;
    hide Calls.ConnectMessage;
    FirstCallsWrite(open);
    AnswersWrite(remote, first, second);
    WrittenAppend(FirstCalls(open), Answers(remote, first, second));
  }

  lemma {:induction false} WrittenAppend(a: seq<Op>, b: seq<Op>)
    ensures Written(a + b) == Written(a) + Written(b)
    decreases |a|
  {
    hide WrittenBy;
    if a == [] {
      assert a + b == b;
    } else {
      WrittenAppend(a[1..], b);
      assert (a + b)[1..] == a[1..] + b;
    }
  }

  lemma FirstCallsWrite(open: seq<byte>)
    ensures Written(FirstCalls(open)) == [Calls.ConnectMessage()]
  {
    hide Calls.ConnectMessage;
    var c := Calls.ConnectMessage();
    assert FirstCalls(open)[1..][1..] == [PollSlots, Client(Sys.Connect), Client(Sys.Create(open))];
    assert Written([Client(Sys.Create(open))]) == [];
    assert Written([Client(Sys.Connect), Client(Sys.Create(open))]) == [];
    assert Written([PollSlots, Client(Sys.Connect), Client(Sys.Create(open))]) == [];
    assert Written(FirstCalls(open)[1..]) == [c];
  }

  lemma AnswersWrite(remote: nat, first: seq<byte>, second: seq<byte>)
    requires remote < 0x1000
    ensures Written(Answers(remote, first, second))
         == [Calls.Ack(remote), PeerData(remote, first), PeerData(remote, second)]
  {
    hide PeerData;
    hide Calls.Ack;
    var ack, m1, m2 := Calls.Ack(remote), PeerData(remote, first), PeerData(remote, second);
    assert [PollSlots][1..] == [] && Written([PollSlots]) == [];
    assert [PeerWrite(m2), PollSlots][1..] == [PollSlots] && Written([PeerWrite(m2), PollSlots]) == [m2];
    assert [PeerWrite(m1), PeerWrite(m2), PollSlots][1..] == [PeerWrite(m2), PollSlots];
    assert Written([PeerWrite(m1), PeerWrite(m2), PollSlots]) == [m1, m2];
    assert Answers(remote, first, second)[1..] == [PeerWrite(m1), PeerWrite(m2), PollSlots];
  }
}
