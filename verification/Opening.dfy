/** Exactly what connecting, creating a service and waiting for its open come to, told from the history. */
module Opening {
  import opened Config
  import opened SlotMessage
  import opened Transport
  import opened Service
  import opened State
  import opened System
  import opened Lifecycle
  import opened Waits
  import opened Answers
  import Trace

  /** How many CONNECT messages have been dispatched. */
  function Connects(ops: seq<Op>): nat {
    if ops == [] then 0
    else (if ops[0].Receive? && MsgType(ops[0].m.id) == Some(CONNECT) then 1 else 0) + Connects(ops[1..])
  }

  /** The CONNECT messages that wait, and the one that a connection has taken. */
  function Arrived(st: State): nat {
    st.connectEvent + (if st.connected then 1 else 0)
  }

  predicate Agrees(st: State) {
    st.conn == CONNECTED <==> st.connected
  }

  /** Connection and its semaphore are as before. */
  predicate SameConnection(a: State, b: State) {
    b.conn == a.conn && b.connected == a.connected && b.connectEvent == a.connectEvent
  }

  lemma QueuedSameConnection(st: State, svc: Option<nat>, m: Msg)
    requires Sized(st) && Known(st, svc) && Stride(m) <= SLOT_SIZE && QueueMessage(st, svc, m).Queued?
    ensures SameConnection(st, QueueMessage(st, svc, m).st)
  {
    hide QueueMessage;
    hide Record;
    hide MsgType;
    QueuedChanges(st, svc, m);
    RecordChanges(st, svc, m, QueueMessage(st, svc, m).st.out);
  }

  /** The message that connect queues, and what is left when it has been. */
  function ConnectMessage(): Msg {
    Msg(MakeMsgId(CONNECT, 0, 0), [])
  }

  lemma ConnectQueues(st: State)
    requires Sized(st)
    ensures Stride(ConnectMessage()) == HEADER_SIZE && MsgType(ConnectMessage().id) == Some(CONNECT)
    ensures var q := QueueMessage(st, None, ConnectMessage());
            && (q.Queued? <==> HasRoom(st.out))
            && (q.Queued? ==>
                  && SameConnection(st, q.st) && q.st.services == st.services && q.st.unused == st.unused
                  && |q.st.sent| == |st.sent| + 1 && q.st.sent[..|st.sent|] == st.sent
                  && q.st.sent[|st.sent|].m == ConnectMessage())
  {
    MsgIdRoundTrip(CONNECT, 0, 0);
    var m := ConnectMessage();
    assert Stride(m) == HEADER_SIZE by { hide MakeMsgId; }
    assert MsgType(m.id) == Some(CONNECT);
    hide ConnectMessage;
    hide MsgType;
    QueueIffRoom(st, m);
    if QueueMessage(st, None, m).Queued? {
      QueuedSameConnection(st, None, m);
      QueuedChanges(st, None, m);
      RecordChanges(st, None, m, QueueMessage(st, None, m).st.out);
      hide QueueMessage;
      hide Record;
      hide WriterOk;
    }
  }

  /** A message that is no data is queued if and only if it fits. */
  lemma QueueIffRoom(st: State, m: Msg)
    requires Sized(st) && Stride(m) <= SLOT_SIZE && MsgType(m.id) != Some(DATA)
    ensures QueueMessage(st, None, m).Queued? <==>
              StartPos(st.out.localTxPos, Stride(m)) + Stride(m) <= st.out.avail * SLOT_SIZE
  {
    hide MsgType;
    RT.QueueEnds(st.writer, st.out, m);
    hide Queue;
    hide WriterOk;
    hide Record;
  }

  /** One poll of connect: it may fail, or be refused, wait, or connect. */
  lemma ConnectIs(y: System)
    requires SystemOk(y)
    ensures var c := ConnectStep(y);
            var starts := !y.st.connected && y.st.conn == DISCONNECTED;
            && (c.Some? <==> !starts || HasRoom(y.st.out))
            && (y.st.connected ==> c == Some(y))
            && (c.Some? && !y.st.connected ==>
                  var st := c.value.st;
                  && c.value.clients == y.clients && st.services == y.st.services && st.unused == y.st.unused
                  && (if starts
                      then
                        && |st.sent| == |y.st.sent| + 1 && st.sent[..|y.st.sent|] == y.st.sent
                        && st.sent[|y.st.sent|].m == ConnectMessage()
                      else st.sent == y.st.sent && st.out == y.st.out)
                  && (st.connected <==> y.st.conn == CONNECTED || y.st.connectEvent > 0)
                  && st.conn == (if st.connected then CONNECTED else CONNECTING)
                  && st.connectEvent
                     == (if st.connected && y.st.conn != CONNECTED then y.st.connectEvent - 1 else y.st.connectEvent))
  {
    ConnectQueues(y.st);
    hide QueueMessage;
    hide WriterOk;
    hide HasRoom;
  }

  lemma ConnectsFirst(ops: seq<Op>)
    requires ops != []
    ensures Connects(ops) == Connects([ops[0]]) + Connects(ops[1..])
  {
    hide MsgType;
    assert [ops[0]][1..] == [];
  }

  lemma {:induction false} RunCountsConnects(y: System, ops: seq<Op>)
    requires LifeOk(y) && (forall op | op in ops :: Fits(op)) && Run(y, ops).Some? && Agrees(y.st)
    ensures var st := Run(y, ops).value.st; Agrees(st) && Arrived(st) == Arrived(y.st) + Connects(ops)
    decreases |ops|
  {
    if ops != [] {
      hide Step;
      hide LifeOk;
      hide Agrees;
      hide Arrived;
      StepKeepsLife(y, ops[0]);
      StepCountsConnects(y, ops[0]);
      ConnectsFirst(ops);
      RunCountsConnects(Step(y, ops[0]).value, ops[1..]);
    }
  }

  lemma StepCountsConnects(y: System, op: Op)
    requires LifeOk(y) && Fits(op) && Step(y, op).Some? && Agrees(y.st)
    ensures var st := Step(y, op).value.st; Agrees(st) && Arrived(st) == Arrived(y.st) + Connects([op])
  {
    assert [op][1..] == [];
    hide MsgType;
    if op.Connect? {
      ConnectIs(y);
    } else if op.Receive? {
      ReceiveConnection(y, op.m);
    } else {
      CallSameConnection(y, op);
    }
    hide ConnectStep;
    hide ReceiveStep;
    hide LifeOk;
  }

  lemma CallSameConnection(y: System, op: Op)
    requires LifeOk(y) && Fits(op) && Step(y, op).Some? && !op.Connect? && !op.Receive?
    ensures SameConnection(y.st, Step(y, op).value.st)
  {
    hide LifeOk;
    hide SameConnection;
    match op
    case Create(open) => CreateSameConnection(y, open);
    case PollOpen(h) => PollSameConnection(y, h);
    case Close(h) => CloseSameConnection(y, h);
    case PollClose(h) => PollSameConnection(y, h);
    case Send(h, data) => SendSameConnection(y, h, data);
  }

  lemma AddSameConnection(st: State)
    requires TableOk(st)
    ensures SameConnection(st, AddService(st).0)
    ensures AddService(st).0.sent == st.sent && AddService(st).0.out == st.out && AddService(st).0.writer == st.writer
  {
    AddUsesNext(st);
    hide WriterOk;
  }

  lemma CreateSameConnection(y: System, open: seq<byte>)
    requires LifeOk(y) && |open| == OPEN_PAYLOAD_SIZE && CreateStep(y, open).Some?
    ensures SameConnection(y.st, CreateStep(y, open).value.st)
  {
    if y.st.connected {
      AddUsesNext(y.st);
      AddSameConnection(y.st);
      hide AddService;
      hide QueueMessage;
      hide MakeMsgId;
      var (st, index) := AddService(y.st);
      if index.Some? {
        var m := Msg(MakeMsgId(MessageType.OPEN, st.services[index.value].value.localport, 0), open);
        QueuedSameConnection(st, None, m);
      }
    }
  }

  lemma PollSameConnection(y: System, h: nat)
    requires SystemOk(y)
    ensures PollOpenStep(y, h).Some? ==> SameConnection(y.st, PollOpenStep(y, h).value.st)
    ensures PollCloseStep(y, h).Some? ==> SameConnection(y.st, PollCloseStep(y, h).value.st)
  {
    hide WriterOk;
  }

  lemma BeginCloseSameConnection(y: System, i: nat)
    requires LifeOk(y) && i < y.st.unused && BeginClose(y, i).Some?
    ensures SameConnection(y.st, BeginClose(y, i).value.st)
  {
    hide QueueMessage;
    hide WriterOk;
    hide CloseMessage;
    var s := TheService(y, i).(closing := true);
    if s.state in {OPENING, ServiceState.OPEN, OPENSYNC} {
      CloseMessageIsClose(s);
      QueuedSameConnection(SetService(y.st, i, s), Some(i), CloseMessage(s));
    }
  }

  lemma CloseSameConnection(y: System, h: nat)
    requires LifeOk(y) && CloseStep(y, h).Some?
    ensures SameConnection(y.st, CloseStep(y, h).value.st)
  {
    hide BeginClose;
    hide PollCloseStep;
    var found := ServiceFromHandle(y.st, h);
    if found.Some? {
      FoundIsBelow(y.st, h, found.value);
      if TheService(y, found.value).state !in {FREE, LISTENING, HIDDEN} && BeginClose(y, found.value).Some? {
        BeginCloseSameConnection(y, found.value);
        PollSameConnection(BeginClose(y, found.value).value, h);
      }
    }
  }

  lemma SendSameConnection(y: System, h: nat, data: seq<byte>)
    requires LifeOk(y) && CalcMsgStride(|data|) <= SLOT_SIZE && SendStep(y, h, data).Some?
    ensures SameConnection(y.st, SendStep(y, h, data).value.st)
  {
    hide QueueMessage;
    hide WriterOk;
    hide MakeMsgId;
    var found := ServiceFromHandle(y.st, h);
    if found.Some? {
      FoundIsBelow(y.st, h, found.value);
      var s := TheService(y, found.value);
      var m := Msg(MakeMsgId(DATA, s.localport, s.remoteport), data);
      if QueueMessage(y.st, Some(found.value), m).Queued? {
        QueuedSameConnection(y.st, Some(found.value), m);
      }
    }
  }

  lemma ReceiveConnection(y: System, m: Msg)
    requires SystemOk(y) && ReceiveStep(y, m).Some?
    ensures var st := ReceiveStep(y, m).value.st;
            && st.conn == y.st.conn && st.connected == y.st.connected
            && st.connectEvent == y.st.connectEvent + (if MsgType(m.id) == Some(CONNECT) then 1 else 0)
  {
    hide MsgType;
    hide SrcPort;
    hide DstPort;
    hide OnClose;
    hide OnOpenAck;
    hide WriterOk;
  }

  // ----- every run -----

  /**
   * What a poll of connect comes to, in every run. The first one sends CONNECT, and fails only if that does not fit;
   * later ones send nothing. It connects if and only if some CONNECT has been dispatched, and a connection uses up
   * one of them. Once connected, it is refused.
   */
  lemma ConnectDecides(y: System, ops: seq<Op>)
    requires Initial(y) && LifeOk(y) && (forall op | op in ops :: Fits(op)) && Run(y, ops).Some?
    ensures var r := Run(y, ops).value;
            var c := ConnectStep(r);
            && Arrived(r.st) == Connects(ops)
            && (c.Some? <==> r.st.sent != [] || HasRoom(r.st.out))
            && (r.st.connected ==> c == Some(r))
            && (c.Some? && !r.st.connected ==>
                  && (c.value.st.connected <==> Connects(ops) > 0)
                  && if r.st.sent == [] then |c.value.st.sent| == 1 && c.value.st.sent[0].m == ConnectMessage()
                     else c.value.st.sent == r.st.sent)
  {
    Trace.InitialTrace(y);
    NoneArrived(y);
    hide Initial;
    hide Agrees;
    hide Arrived;
    hide Trace.TraceOk;
    RunCountsConnects(y, ops);
    Trace.RunKeepsTrace(y, ops);
    var r := Run(y, ops).value;
    hide Run;
    hide Connects;
    NothingSentIff(r.st);
    hide ConnectStep;
    hide LifeOk;
    ConnectFrom(r, Connects(ops));
  }

  lemma NoneArrived(y: System)
    requires Initial(y)
    ensures Agrees(y.st) && Arrived(y.st) == 0
  {
  }

  lemma NothingSentIff(st: State)
    requires Trace.TraceOk(st)
    ensures st.conn == DISCONNECTED <==> st.sent == []
  {
  }

  lemma ConnectFrom(r: System, k: nat)
    requires SystemOk(r) && Agrees(r.st) && Arrived(r.st) == k && (r.st.conn == DISCONNECTED <==> r.st.sent == [])
    ensures var c := ConnectStep(r);
            && (c.Some? <==> r.st.sent != [] || HasRoom(r.st.out))
            && (r.st.connected ==> c == Some(r))
            && (c.Some? && !r.st.connected ==>
                  && (c.value.st.connected <==> k > 0)
                  && if r.st.sent == [] then |c.value.st.sent| == 1 && c.value.st.sent[0].m == ConnectMessage()
                     else c.value.st.sent == r.st.sent)
  {
    ConnectIs(r);
    hide ConnectStep;
    hide HasRoom;
    hide WriterOk;
    hide ConnectMessage;
  }

  /** An OPEN with the payload given, from port `i`. */
  function OpenMessage(i: nat, open: seq<byte>): Msg
    requires i < MAX_SERVICES
  {
    Msg(MakeMsgId(MessageType.OPEN, i, 0), open)
  }

  /**
   * What creating a service comes to: refused before the connection, refused once all 4096 ports have been used, and
   * otherwise one new service under the next port and the next handle, as one that waits to be opened, with one OPEN
   * sent from that port, with the payload given. It fails only where that OPEN does not fit the slots.
   */
  lemma CreateDecides(y: System, open: seq<byte>)
    requires LifeOk(y) && |open| == OPEN_PAYLOAD_SIZE
    ensures var c, i, n := CreateStep(y, open), y.st.unused, |y.st.sent|;
            if !y.st.connected then c == Some(y)
            else if i == MAX_SERVICES then c == Some(y.(st := y.st.(nextHandle := y.st.nextHandle + 1)))
            else
              && Stride(OpenMessage(i, open)) == 24
              && (c.Some? <==> StartPos(y.st.out.localTxPos, 24) + 24 <= y.st.out.avail * SLOT_SIZE)
              && (c.Some? ==>
                    var st := c.value.st;
                    && c.value.clients == y.clients + [WaitOpen]
                    && st.unused == i + 1 && st.nextHandle == y.st.nextHandle + 1
                    && (var s := NewService(y.st.nextHandle).(localport := i, state := OPENING);
                        st.services == y.st.services[i := Some(s)])
                    && |st.sent| == n + 1 && st.sent[..n] == y.st.sent && st.sent[n].m == OpenMessage(i, open)
                    && Queue(y.st.writer, y.st.out, OpenMessage(i, open)) == Some(st.out))
  {
    hide QueueMessage;
    hide Queue;
    hide WriterOk;
    hide MakeMsgId;
    hide Settled;
    if y.st.connected {
      AddUsesNext(y.st);
      AddSameConnection(y.st);
      hide AddService;
      hide SameConnection;
      hide TableOk;
      hide LifeOk;
      if y.st.unused < MAX_SERVICES {
        OpenQueues(AddService(y.st).0, y.st.unused, open);
      }
    }
  }

  lemma OpenQueues(st: State, i: nat, open: seq<byte>)
    requires Sized(st) && i < MAX_SERVICES && |open| == OPEN_PAYLOAD_SIZE
    ensures Stride(OpenMessage(i, open)) == 24
    ensures var q := QueueMessage(st, None, OpenMessage(i, open));
            && (q.Queued? <==> StartPos(st.out.localTxPos, 24) + 24 <= st.out.avail * SLOT_SIZE)
            && (q.Queued? ==>
                  && q.st.services == st.services && q.st.unused == st.unused && q.st.nextHandle == st.nextHandle
                  && |q.st.sent| == |st.sent| + 1 && q.st.sent[..|st.sent|] == st.sent
                  && q.st.sent[|st.sent|].m == OpenMessage(i, open)
                  && Queue(st.writer, st.out, OpenMessage(i, open)) == Some(q.st.out))
  {
    MsgIdRoundTrip(MessageType.OPEN, i, 0);
    var m := OpenMessage(i, open);
    assert Stride(m) == 24 by { hide MakeMsgId; }
    assert MsgType(m.id) == Some(MessageType.OPEN);
    hide OpenMessage;
    hide MsgType;
    QueueIffRoom(st, m);
    if QueueMessage(st, None, m).Queued? {
      QueuedChanges(st, None, m);
      RecordChanges(st, None, m, QueueMessage(st, None, m).st.out);
      hide QueueMessage;
      hide Record;
      hide WriterOk;
      hide Queue;
    }
  }

  /**
   * What a poll of an open that waits comes to, in every run: it returns, without an error, if and only if an
   * OPENACK or a CLOSE for the port has been dispatched; otherwise nothing changes.
   */
  lemma PollOpenDecides(y: System, ops: seq<Op>, i: nat)
    requires Initial(y) && LifeOk(y) && (forall op | op in ops :: Fits(op)) && Run(y, ops).Some?
    requires i < Run(y, ops).value.st.unused && Run(y, ops).value.clients[i] == WaitOpen
    ensures var r := Run(y, ops).value;
            var s := TheService(r, i);
            PollOpenStep(r, s.handle)
            == Some(if FirstAnswer(ops, i).None? then r else Replace(r, i, s.(removeEvent := 0), Opened))
  {
    FirstAnswerDecides(y, ops, i);
    var r := Run(y, ops).value;
    hide Run;
    hide Initial;
    hide PollOpenStep;
    PollOpenIs(r, i);
  }

  lemma PollOpenIs(r: System, i: nat)
    requires LifeOk(r) && i < r.st.unused && r.clients[i] == WaitOpen
    ensures var s := TheService(r, i);
            PollOpenStep(r, s.handle)
            == Some(if s.state == OPENING then r else Replace(r, i, s.(removeEvent := 0), Opened))
  {
    HandleFinds(r.st, i);
    assert Settled(TheService(r, i), r.clients[i]);
  }

  /** What a poll of a close that waits comes to: it returns, without an error, if and only if its event is raised. */
  lemma PollCloseDecides(y: System, i: nat)
    requires LifeOk(y) && i < y.st.unused && y.clients[i] == WaitClose
    ensures var s := TheService(y, i);
            PollCloseStep(y, s.handle) == Some(if Raised(y, i) then Replace(y, i, s.(removeEvent := 0), Closed) else y)
  {
    HandleFinds(y.st, i);
    assert Settled(TheService(y, i), y.clients[i]);
  }
}
