/** The first calls of a client, as the host can really make them, and what padding as written does to its OPEN. */
module LostOpen {
  import opened Config
  import opened SlotMessage
  import opened Slots
  import opened Transport
  import opened Service
  import opened State
  import opened System
  import opened Lifecycle
  import opened Trace
  import opened Outgoing

  function ConnectMessage(): Msg {
    Msg(MakeMsgId(CONNECT, 0, 0), [])
  }

  function OpenMessage(open: seq<byte>): Msg {
    Msg(MakeMsgId(MessageType.OPEN, 0, 0), open)
  }

  function DataMessage(remote: nat, data: seq<byte>): Msg
    requires remote < 0x1000
  {
    Msg(MakeMsgId(DATA, 0, remote), data)
  }

  function Ack(remote: nat): Msg
    requires remote < 0x1000
  {
    Msg(MakeMsgId(OPENACK, remote, 0), [])
  }

  /** Connect, create a service, and send it 4088 bytes; the other side answers in between. */
  function FirstCalls(open: seq<byte>, remote: nat, data: seq<byte>): seq<Op>
    requires remote < 0x1000
  {
    [Connect, Receive(ConnectMessage()), Connect, Create(open), Receive(Ack(remote)),
     PollOpen(MAX_SERVICES), Send(MAX_SERVICES, data)]
  }

  /** The quota of the first port and the counters of all data, before anything has been counted. */
  predicate Uncounted(st: State) {
    && |st.quotas| == MAX_SERVICES && st.out.avail >= 2
    && st.previousData == -1 && st.dataUse == 0 && st.dataQuota == st.out.avail - 1
    && st.slotQuota == st.out.avail / 2 && st.messageQuota == st.slotQuota * 256
    && st.quotas[0].slotUse == 0 && st.quotas[0].messageUse == 0
  }

  /** A message other than DATA and CLOSE is queued, as long as it fits the first slot, and nothing else happens. */
  lemma QueuesInFirstSlot(st: State, m: Msg)
    requires Sized(st) && Stride(m) <= SLOT_SIZE && st.out.localTxPos + Stride(m) <= SLOT_SIZE
    requires MsgType(m.id) in {Some(CONNECT), Some(MessageType.OPEN)}
    ensures var q := QueueMessage(st, None, m);
            && q.Queued? && q.st == st.(out := q.st.out, sent := q.st.sent) && Sized(q.st)
            && q.st.out.localTxPos == st.out.localTxPos + Stride(m) && q.st.out.avail == st.out.avail
            && Messages(q.st.sent) == Messages(st.sent) + [m]
  {
    QueueFits(st.writer, st.out, m);
    hide Queue;
    hide WriterOk;
    hide MsgType;
    QueuedInstead(st, m);
    MessagesOneMore(st.sent, QueueMessage(st, None, m).st.sent[|st.sent|]);
  }

  lemma QueueFits(v: Variant, s: Side, m: Msg)
    requires WriterOk(s) && Stride(m) <= SLOT_SIZE && s.localTxPos + Stride(m) <= SLOT_SIZE
    ensures var r := Queue(v, s, m);
            r.Some? && r.value.localTxPos == s.localTxPos + Stride(m) && r.value.avail == s.avail
  {
    hide Queue;
    hide MemoryPadded;
    hide StoreMessage;
    hide StartPos;
    FitsHere(s.localTxPos, Stride(m), s.avail);
    QueueEffect(v, s, m);
  }

  lemma FitsHere(pos: nat, need: nat, avail: nat)
    requires 0 < need && pos + need <= SLOT_SIZE
    ensures StartPos(pos, need) == pos && (avail > 0 ==> pos != avail * SLOT_SIZE)
  {
  }

  lemma QueuedInstead(st: State, m: Msg)
    requires Sized(st) && Stride(m) <= SLOT_SIZE && MsgType(m.id) in {Some(CONNECT), Some(MessageType.OPEN)}
    requires Queue(st.writer, st.out, m).Some?
    ensures var q := QueueMessage(st, None, m);
            && q.Queued? && q.st.out == Queue(st.writer, st.out, m).value
            && |q.st.sent| == |st.sent| + 1 && q.st.sent[|st.sent|].m == m
            && q.st.sent == st.sent + [q.st.sent[|st.sent|]]
            && q.st == st.(out := q.st.out, sent := q.st.sent)
  {
    hide Queue;
    hide WriterOk;
    hide MsgType;
    QueueKeepsWriterOk(st.writer, st.out, m);
  }

  // ----- one call after the other -----

  lemma Connecting(y: System)
    requires SystemOk(y) && !y.st.connected && y.st.conn == DISCONNECTED && y.st.connectEvent == 0
    requires y.st.out.localTxPos == 0 && y.st.sent == [] && y.clients == []
    ensures ConnectStep(y).Some?
    ensures var r := ConnectStep(y).value;
            && r == System(y.st.(out := r.st.out, sent := r.st.sent, conn := CONNECTING), [])
            && r.st.out.localTxPos == 8 && r.st.out.avail == y.st.out.avail && Sized(r.st)
            && Messages(r.st.sent) == [ConnectMessage()]
  {
    hide MakeMsgId;
    hide MsgType;
    hide SrcPort;
    hide DstPort;
    hide QueueMessage;
    hide WriterOk;
    hide Messages;
    MsgIdRoundTrip(CONNECT, 0, 0);
    assert Stride(ConnectMessage()) == 8;
    NothingSent(y.st);
    QueuesInFirstSlot(y.st, ConnectMessage());
    assert Messages(y.st.sent) + [ConnectMessage()] == [ConnectMessage()];
  }

  lemma NothingSent(st: State)
    requires st.sent == []
    ensures Messages(st.sent) == []
  {
  }

  lemma Answered(y: System)
    requires SystemOk(y)
    ensures ReceiveStep(y, ConnectMessage()) == Some(y.(st := y.st.(connectEvent := y.st.connectEvent + 1)))
  {
    MsgIdRoundTrip(CONNECT, 0, 0);
    hide MakeMsgId;
    hide WriterOk;
  }

  lemma Creating(y: System, open: seq<byte>)
    requires LifeOk(y) && y.st.connected && y.st.unused == 0 && y.st.nextHandle == MAX_SERVICES && Uncounted(y.st)
    requires |open| == OPEN_PAYLOAD_SIZE && y.st.out.localTxPos == 8 && Messages(y.st.sent) == [ConnectMessage()]
    ensures CreateStep(y, open).Some?
    ensures var r := CreateStep(y, open).value;
            && Uncounted(r.st) && r.clients == [WaitOpen] && r.st.unused == 1 && r.st.writer == y.st.writer
            && r.st.services[0] == Some(NewService(MAX_SERVICES).(localport := 0, state := OPENING))
            && r.st.quotas[0] == y.st.quotas[0].(slotQuota := y.st.slotQuota, messageQuota := y.st.messageQuota,
                                                 previousTx := -1)
            && r.st.out.localTxPos == 32 && r.st.out.avail == y.st.out.avail
            && Messages(r.st.sent) == [ConnectMessage(), OpenMessage(open)]
  {
    assert y.clients == [] && TableOk(y.st);
    hide LifeOk;
    hide Settled;
    hide QueueMessage;
    hide AddService;
    hide Sized;
    hide MsgType;
    hide SrcPort;
    hide DstPort;
    FirstService(y.st);
    hide TableOk;
    MsgIdRoundTrip(MessageType.OPEN, 0, 0);
    hide MakeMsgId;
    var st := AddService(y.st).0;
    assert Stride(OpenMessage(open)) == 24;
    QueuesInFirstSlot(st, OpenMessage(open));
    assert [ConnectMessage()] + [OpenMessage(open)] == [ConnectMessage(), OpenMessage(open)];
  }

  lemma FirstService(st: State)
    requires TableOk(st) && st.unused == 0 && st.nextHandle == MAX_SERVICES && Uncounted(st) && st.out.localTxPos == 8
    ensures var (r, index) := AddService(st);
            && index == Some(0) && Uncounted(r) && r.unused == 1 && r.out == st.out && r.sent == st.sent
            && r.writer == st.writer && r.connected == st.connected && Sized(r)
            && r.services[0] == Some(NewService(MAX_SERVICES).(localport := 0, state := OPENING))
            && r.quotas[0] == st.quotas[0].(slotQuota := st.slotQuota, messageQuota := st.messageQuota,
                                            previousTx := -1)
  {
    hide WriterOk;
  }

  /** The host is connected and has no service yet. */
  predicate Ready(y: System) {
    && LifeOk(y) && y.clients == [] && y.st.connected && y.st.unused == 0 && y.st.nextHandle == MAX_SERVICES
    && Uncounted(y.st) && y.st.out.localTxPos == 8 && Messages(y.st.sent) == [ConnectMessage()]
  }

  /** Two polls of connect, with the other side's answer in between. */
  lemma Connects(y: System) returns (y1: System, y2: System, y3: System)
    requires Initial(y) && LifeOk(y) && y.st.out.avail >= 2
    ensures Ready(y3) && y3.st.writer == y.st.writer
    ensures Leads(y, Connect, y1) && Leads(y1, Receive(ConnectMessage()), y2) && Leads(y2, Connect, y3)
  {
    hide ConnectStep;
    hide ReceiveStep;
    hide LifeOk;
    hide Leads;
    assert |y.st.quotas| == MAX_SERVICES;
    hide Sized;
    Connecting(y);
    LeadsOn(y, Connect);
    y1 := ConnectStep(y).value;
    Answered(y1);
    LeadsOn(y1, Receive(ConnectMessage()));
    y2 := ReceiveStep(y1, ConnectMessage()).value;
    Connected(y2);
    LeadsOn(y2, Connect);
    y3 := ConnectStep(y2).value;
  }

  lemma LeadsOn(y: System, op: Op)
    requires LifeOk(y) && Fits(op) && Step(y, op).Some?
    ensures Leads(y, op, Step(y, op).value) && LifeOk(Step(y, op).value)
  {
    hide LifeOk;
    hide Step;
    StepKeepsLife(y, op);
  }

  lemma Connected(y: System)
    requires SystemOk(y) && !y.st.connected && y.st.conn == CONNECTING && y.st.connectEvent == 1
    ensures ConnectStep(y) == Some(y.(st := y.st.(connectEvent := 0, conn := CONNECTED, connected := true)))
  {
    hide WriterOk;
  }

  /** One call leads from `a` to `b`. */
  predicate Leads(a: System, op: Op, b: System) {
    LifeOk(a) && Fits(op) && Step(a, op) == Some(b) && LifeOk(b)
  }

  /** A run goes through the states its steps lead to. */
  lemma {:induction false} RunFollows(ys: seq<System>, ops: seq<Op>)
    requires |ys| == |ops| + 1 && LifeOk(ys[0]) && forall op | op in ops :: Fits(op)
    requires forall k | 0 <= k < |ops| :: Leads(ys[k], ops[k], ys[k + 1])
    ensures Run(ys[0], ops) == Some(ys[|ops|])
    decreases |ops|
  {
    hide Step;
    hide LifeOk;
    if ops != [] {
      assert Leads(ys[0], ops[0], ys[1]);
      forall k | 0 <= k < |ops[1..]| ensures Leads(ys[1..][k], ops[1..][k], ys[1..][k + 1]) {
        assert Leads(ys[k + 1], ops[k + 1], ys[k + 2]);
      }
      hide Leads;
      RunFollows(ys[1..], ops[1..]);
    }
  }

  /** The first service is there, under the first handle, and has been polled or acknowledged as `s` says. */
  predicate FirstOnly(y: System, s: Service, p: Phase) {
    && LifeOk(y) && y.st.unused == 1 && y.clients == [p] && y.st.services[0] == Some(s)
    && s.handle == MAX_SERVICES && s.localport == 0
    && Uncounted(y.st) && y.st.quotas[0].previousTx == -1
    && y.st.quotas[0].slotQuota == y.st.slotQuota && y.st.quotas[0].messageQuota == y.st.messageQuota
    && y.st.out.localTxPos == 32
  }

  lemma Opening(y: System, s: Service, remote: nat)
    requires FirstOnly(y, s, WaitOpen) && s.state == OPENING && s.removeEvent == 0 && remote < 0x1000
    ensures ReceiveStep(y, Ack(remote)).Some?
    ensures var r := ReceiveStep(y, Ack(remote)).value;
            && FirstOnly(r, s.(remoteport := remote, state := ServiceState.OPEN, removeEvent := 1), WaitOpen)
            && r.st.out == y.st.out && r.st.sent == y.st.sent && r.st.writer == y.st.writer
  {
    MsgIdRoundTrip(OPENACK, remote, 0);
    StepKeepsLife(y, Receive(Ack(remote)));
    hide MakeMsgId;
    hide MsgType;
    hide SrcPort;
    hide DstPort;
    hide LifeOk;
    hide WriterOk;
  }

  lemma Polling(y: System, s: Service)
    requires FirstOnly(y, s, WaitOpen) && s.state == ServiceState.OPEN && s.removeEvent == 1
    ensures PollOpenStep(y, MAX_SERVICES).Some?
    ensures var r := PollOpenStep(y, MAX_SERVICES).value;
            && FirstOnly(r, s.(removeEvent := 0), Opened)
            && r.st.out == y.st.out && r.st.sent == y.st.sent && r.st.writer == y.st.writer
  {
    HandleFinds(y.st, 0);
    StepKeepsLife(y, PollOpen(MAX_SERVICES));
    hide LifeOk;
    hide WriterOk;
  }

  lemma Sending(y: System, s: Service, data: seq<byte>)
    requires FirstOnly(y, s, Opened) && s.state == ServiceState.OPEN && !s.closing && s.remoteport < 0x1000
    requires |data| == SLOT_SIZE - HEADER_SIZE
    ensures Fits(Send(MAX_SERVICES, data)) && SendStep(y, MAX_SERVICES, data).Some?
    ensures var r := SendStep(y, MAX_SERVICES, data).value;
            Messages(r.st.sent) == Messages(y.st.sent) + [DataMessage(s.remoteport, data)] && r.st.writer == y.st.writer
  {
    var m := DataMessage(s.remoteport, data);
    assert Stride(m) == SLOT_SIZE;
    HandleFinds(y.st, 0);
    MsgIdRoundTrip(DATA, 0, s.remoteport);
    hide MakeMsgId;
    hide MsgType;
    hide SrcPort;
    hide DstPort;
    QueueNextSlot(y.st.writer, y.st.out, m);
    hide Queue;
    SentNow(y.st, m);
    MessagesOneMore(y.st.sent, QueueMessage(y.st, Some(0), m).st.sent[|y.st.sent|]);
  }

  lemma QueueNextSlot(v: Variant, s: Side, m: Msg)
    requires WriterOk(s) && Stride(m) == SLOT_SIZE && s.localTxPos == 32 && s.avail >= 2
    ensures Queue(v, s, m).Some?
  {
    hide Queue;
    QueueEffect(v, s, m);
  }

  lemma SentNow(st: State, m: Msg)
    requires Sized(st) && Uncounted(st) && st.services[0].Some? && Stride(m) == SLOT_SIZE && st.out.localTxPos == 32
    requires MsgType(m.id) == Some(DATA) && !st.services[0].value.closing && st.services[0].value.localport == 0
    requires st.quotas[0].previousTx == -1
    requires st.quotas[0].slotQuota == st.slotQuota && st.quotas[0].messageQuota == st.messageQuota
    requires Queue(st.writer, st.out, m).Some?
    ensures var q := QueueMessage(st, Some(0), m);
            && q.Queued? && |q.st.sent| == |st.sent| + 1 && q.st.sent[|st.sent|].m == m
            && q.st.sent == st.sent + [q.st.sent[|st.sent|]] && q.st.writer == st.writer
  {
    QueueKeepsWriterOk(st.writer, st.out, m);
    hide Queue;
    hide WriterOk;
    hide MsgType;
  }

  /** The service is created, acknowledged and polled. */
  lemma Opens(y: System, open: seq<byte>, remote: nat) returns (y1: System, y2: System, y3: System, s: Service)
    requires Ready(y) && |open| == OPEN_PAYLOAD_SIZE && remote < 0x1000
    ensures y3.st.writer == y.st.writer
    ensures FirstOnly(y3, s, Opened) && s.state == ServiceState.OPEN && !s.closing && s.remoteport == remote
    ensures Messages(y3.st.sent) == [ConnectMessage(), OpenMessage(open)]
    ensures Leads(y, Create(open), y1) && Leads(y1, Receive(Ack(remote)), y2) && Leads(y2, PollOpen(MAX_SERVICES), y3)
  {
    hide LifeOk;
    hide WriterOk;
    hide CreateStep;
    hide ReceiveStep;
    hide PollOpenStep;
    hide Leads;
    Creating(y, open);
    LeadsOn(y, Create(open));
    y1 := CreateStep(y, open).value;
    var s0 := NewService(MAX_SERVICES).(localport := 0, state := OPENING);
    Opening(y1, s0, remote);
    LeadsOn(y1, Receive(Ack(remote)));
    y2 := ReceiveStep(y1, Ack(remote)).value;
    Polling(y2, s0.(remoteport := remote, state := ServiceState.OPEN, removeEvent := 1));
    LeadsOn(y2, PollOpen(MAX_SERVICES));
    y3 := PollOpenStep(y2, MAX_SERVICES).value;
    s := s0.(remoteport := remote, state := ServiceState.OPEN);
  }

  /** The calls keep the sizes that callers have to keep. */
  lemma FirstCallsFit(open: seq<byte>, remote: nat, data: seq<byte>)
    requires |open| == OPEN_PAYLOAD_SIZE && remote < 0x1000 && |data| == SLOT_SIZE - HEADER_SIZE
    ensures forall op | op in FirstCalls(open, remote, data) :: Fits(op)
  {
    hide MakeMsgId;
  }

  lemma FirstCallsRun(y: System, open: seq<byte>, remote: nat, data: seq<byte>)
    requires Initial(y) && LifeOk(y) && y.st.out.avail >= 2
    requires |open| == OPEN_PAYLOAD_SIZE && remote < 0x1000 && |data| == SLOT_SIZE - HEADER_SIZE
    requires forall op | op in FirstCalls(open, remote, data) :: Fits(op)
    ensures var r := Run(y, FirstCalls(open, remote, data));
            && r.Some? && r.value.st.writer == y.st.writer
            && Messages(r.value.st.sent) == [ConnectMessage(), OpenMessage(open), DataMessage(remote, data)]
  {
    hide LifeOk;
    hide Ready;
    hide Leads;
    hide FirstOnly;
    hide Initial;
    var y1, y2, y3 := Connects(y);
    var y4, y5, y6, s := Opens(y3, open, remote);
    var y7 := SendsBig(y6, s, data);
    assert [ConnectMessage(), OpenMessage(open)] + [DataMessage(remote, data)]
        == [ConnectMessage(), OpenMessage(open), DataMessage(remote, data)];
    hide MakeMsgId;
    hide Messages;
    hide Ack;
    hide ConnectMessage;
    hide Run;
    FirstCallsFollow([y, y1, y2, y3, y4, y5, y6, y7], open, remote, data);
  }

  lemma FirstCallsFollow(ys: seq<System>, open: seq<byte>, remote: nat, data: seq<byte>)
    requires |ys| == 8 && LifeOk(ys[0]) && remote < 0x1000
    requires forall op | op in FirstCalls(open, remote, data) :: Fits(op)
    requires Leads(ys[0], Connect, ys[1]) && Leads(ys[1], Receive(ConnectMessage()), ys[2])
    requires Leads(ys[2], Connect, ys[3]) && Leads(ys[3], Create(open), ys[4])
    requires Leads(ys[4], Receive(Ack(remote)), ys[5]) && Leads(ys[5], PollOpen(MAX_SERVICES), ys[6])
    requires Leads(ys[6], Send(MAX_SERVICES, data), ys[7])
    ensures Run(ys[0], FirstCalls(open, remote, data)) == Some(ys[7])
  {
    hide LifeOk;
    hide Leads;
    hide Run;
    hide Ack;
    hide ConnectMessage;
    hide Fits;
    var ops := FirstCalls(open, remote, data);
    forall k | 0 <= k < |ops| ensures Leads(ys[k], ops[k], ys[k + 1]) {
      assert k == 0 || k == 1 || k == 2 || k == 3 || k == 4 || k == 5 || k == 6;
    }
    RunFollows(ys, ops);
  }

  lemma SendsBig(y: System, s: Service, data: seq<byte>) returns (y1: System)
    requires FirstOnly(y, s, Opened) && s.state == ServiceState.OPEN && !s.closing && s.remoteport < 0x1000
    requires |data| == SLOT_SIZE - HEADER_SIZE
    ensures Leads(y, Send(MAX_SERVICES, data), y1) && y1.st.writer == y.st.writer
    ensures Messages(y1.st.sent) == Messages(y.st.sent) + [DataMessage(s.remoteport, data)]
  {
    hide LifeOk;
    hide Leads;
    hide SendStep;
    Sending(y, s, data);
    LeadsOn(y, Send(MAX_SERVICES, data));
    y1 := SendStep(y, MAX_SERVICES, data).value;
  }

  /**
   * A run of the host as written in which the OPEN of its first service is lost: connect, create a service, and send
   * 4088 bytes. In the slots, padding stands where the OPEN was put.
   */
  lemma OpenIsLost(y: System, open: seq<byte>, remote: nat, data: seq<byte>)
    requires Initial(y) && LifeOk(y) && y.st.writer.AsWritten? && y.st.out.avail >= 2
    requires |open| == OPEN_PAYLOAD_SIZE && remote < 0x1000 && |data| == SLOT_SIZE - HEADER_SIZE
    ensures forall op | op in FirstCalls(open, remote, data) :: Fits(op)
    ensures var r := Run(y, FirstCalls(open, remote, data));
            && r.Some?
            && var st := r.value.st;
               var ms := Messages(st.sent);
               && ms == [ConnectMessage(), OpenMessage(open), DataMessage(remote, data)]
               && V.Starts(ms)[1] == 8 && V.Lost(Frames(st.out.mem, st.out.queue), 8, SLOT_SIZE)
               && !V.Intact(st.out, ms)
  {
    FirstCallsFit(open, remote, data);
    hide Run;
    hide LifeOk;
    hide FirstCalls;
    FirstCallsRun(y, open, remote, data);
    InitialTrace(y);
    InitialIsQueued(y);
    hide Initial;
    hide TraceOk;
    hide SlotsAreQueued;
    RunKeepsQueued(y, FirstCalls(open, remote, data), y.st.out);
    hide V.Lost;
    hide V.Intact;
    hide V.Starts;
    FirstMessagesLost(Run(y, FirstCalls(open, remote, data)).value.st, y.st.out, open, remote, data);
  }

  lemma FirstMessagesLost(st: State, out: Side, open: seq<byte>, remote: nat, data: seq<byte>)
    requires SlotsAreQueued(st, out) && out.localTxPos == 0 && st.writer.AsWritten?
    requires |open| == OPEN_PAYLOAD_SIZE && remote < 0x1000 && |data| == SLOT_SIZE - HEADER_SIZE
    requires Messages(st.sent) == [ConnectMessage(), OpenMessage(open), DataMessage(remote, data)]
    ensures V.Starts(Messages(st.sent))[1] == 8 && V.Lost(Frames(st.out.mem, st.out.queue), 8, SLOT_SIZE)
    ensures !V.Intact(st.out, Messages(st.sent))
  {
    hide Messages;
    hide V.Intact;
    hide V.Lost;
    hide V.Starts;
    hide V.QueueAll;
    hide V.Sendable;
    hide MakeMsgId;
    hide WriterOk;
    hide Frames;
    V.PaddingLosesMessage(out, ConnectMessage(), OpenMessage(open), DataMessage(remote, data));
  }
}
