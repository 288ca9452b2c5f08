/** The service table, and how opening and closing settle. */
module Lifecycle {
  import opened Config
  import opened SlotMessage
  import opened Transport
  import opened Service
  import opened State
  import opened System

  // ----- invariants -----

  /** Entry i below `unused` is the service with port i, the rest is empty, and handles only grow. */
  predicate TableOk(st: State) {
    && Sized(st) && st.unused <= MAX_SERVICES
    && (forall i | 0 <= i < MAX_SERVICES :: st.services[i].Some? <==> i < st.unused)
    && (forall i | 0 <= i < st.unused ::
          st.services[i].value.localport == i && st.services[i].value.handle < st.nextHandle)
    && (forall i, j | 0 <= i < j < st.unused :: st.services[i].value.handle < st.services[j].value.handle)
  }

  /** What a service looks like at each point of its client: above all, how often its event is raised. */
  predicate Settled(s: Service, p: Phase) {
    && (s.state in {ServiceState.OPEN, CLOSESENT} ==> s.remoteport < PORT_FREE)
    && (s.state in {OPENING, CLOSEWAIT, FREE} ==> s.remoteport == PORT_FREE)
    && match p
       case WaitOpen =>
         || (s.state == OPENING && s.removeEvent == 0 && !s.closing)
         || (s.state == ServiceState.OPEN && s.removeEvent == 1)
         || (s.state == CLOSEWAIT && s.removeEvent == 1 && s.closing)
       case Opened =>
         s.removeEvent == 0 && (s.state == ServiceState.OPEN || (s.state == CLOSEWAIT && s.closing))
       case WaitClose =>
         s.closing && ((s.state == CLOSESENT && s.removeEvent == 0) || (s.state == FREE && s.removeEvent == 1))
       case Closed => s.closing && s.state == FREE && s.removeEvent == 0
       case OpenFailed => false
       case CloseFailed => false
  }

  predicate LifeOk(y: System)
    ensures LifeOk(y) ==> SystemOk(y)
  {
    && TableOk(y.st) && |y.clients| == y.st.unused
    && forall i | 0 <= i < y.st.unused :: Settled(y.st.services[i].value, y.clients[i])
  }

  // ----- the table -----

  /** The states of a service that has not sent, and not been freed without, its CLOSE. */
  predicate Live(s: Service) {
    s.state in {OPENING, ServiceState.OPEN, OPENSYNC, CLOSEWAIT}
  }

  /** What stays, and what can only happen, between a state and a later one. */
  predicate Evolves(s: Service, t: Service) {
    && t.handle == s.handle && t.localport == s.localport
    && (Live(t) ==> Live(s))
    && (s.state == FREE ==> t.state == FREE)
    && (s.closing ==> t.closing)
  }

  predicate Later(a: State, b: State) {
    && |a.services| == MAX_SERVICES == |b.services|
    && a.unused <= b.unused <= MAX_SERVICES && a.nextHandle <= b.nextHandle
    && forall i | 0 <= i < a.unused && a.services[i].Some? ::
         b.services[i].Some? && Evolves(a.services[i].value, b.services[i].value)
  }

  lemma LaterTrans(a: State, b: State, c: State)
    requires Later(a, b) && Later(b, c)
    ensures Later(a, c)
  {
  }

  /** The handle given out for a service finds that service. */
  lemma HandleFinds(st: State, i: nat)
    requires TableOk(st) && i < st.unused
    ensures ServiceFromHandle(st, st.services[i].value.handle) == Some(i)
  {
    assert st.services[i].Some?;
    var r := ServiceFromHandle(st, st.services[i].value.handle);
    assert r.Some? && r.value < st.unused;
  }

  lemma FoundIsBelow(st: State, h: nat, i: nat)
    requires TableOk(st) && ServiceFromHandle(st, h) == Some(i)
    ensures i < st.unused && st.services[i].value.handle == h
  {
  }

  /** A service keeps its place, handle and port; its state may change as the client's phase allows. */
  lemma ReplaceKeepsLife(y: System, i: nat, s: Service, p: Phase)
    requires LifeOk(y) && i < y.st.unused
    requires s.remoteport <= PORT_FREE
    requires Settled(s, p) && Evolves(TheService(y, i), s)
    ensures LifeOk(Replace(y, i, s, p)) && Later(y.st, Replace(y, i, s, p).st)
  {
    hide Settled;
    var y1 := Replace(y, i, s, p);
    assert Sized(y1.st);
  }

  lemma SetServiceIsReplace(y: System, i: nat, s: Service)
    requires SystemOk(y) && i < |y.clients|
    ensures y.(st := SetService(y.st, i, s)) == Replace(y, i, s, y.clients[i])
  {
    assert y.clients[i := y.clients[i]] == y.clients;
  }

  /** Everything a queued message changes. */
  lemma QueuedChanges(st: State, svc: Option<nat>, m: Msg)
    requires Sized(st) && Stride(m) <= SLOT_SIZE && Known(st, svc) && QueueMessage(st, svc, m).Queued?
    ensures var r := QueueMessage(st, svc, m).st;
            && Queue(st.writer, st.out, m) == Some(r.out) && WriterOk(r.out) && 0 < r.out.localTxPos
            && (MsgType(m.id) == Some(DATA) ==> svc.Some? && !st.services[svc.value].value.closing)
            && r == Record(st, svc, m, r.out)
  {
    hide Queue;
    hide Record;
    hide WriterOk;
    if Queue(st.writer, st.out, m).Some? {
      QueueKeepsWriterOk(st.writer, st.out, m);
    }
  }

  /** What recording leaves alone. */
  lemma RecordChanges(st: State, svc: Option<nat>, m: Msg, out: Side)
    requires Sized(st) && Known(st, svc) && WriterOk(out) && 0 < out.localTxPos
    requires MsgType(m.id) == Some(DATA) ==> svc.Some?
    ensures var r := Record(st, svc, m, out);
            && r.writer == st.writer && r.unused == st.unused && r.nextHandle == st.nextHandle
            && r.conn == st.conn && r.connectEvent == st.connectEvent && r.connected == st.connected
            && r.out == out && r.sent == st.sent + [Sent(m, SlotIndex(out.localTxPos - 1))]
            && r.services == (if svc.Some? && MsgType(m.id) == Some(CLOSE)
                              then st.services[svc.value := Some(st.services[svc.value].value.(state := CLOSESENT))]
                              else st.services)
  {
    hide WriterOk;
    hide MsgType;
  }

  // ----- every step keeps the invariants -----

  lemma SameTable(y: System, st: State)
    requires LifeOk(y) && Sized(st)
    requires st.services == y.st.services && st.unused == y.st.unused && st.nextHandle >= y.st.nextHandle
    ensures LifeOk(y.(st := st)) && Later(y.st, st)
  {
    hide Settled;
  }

  /** A message that is not a CLOSE of a known service leaves the table alone. */
  lemma QueuedKeepsTable(y: System, svc: Option<nat>, m: Msg)
    requires LifeOk(y) && Stride(m) <= SLOT_SIZE && Known(y.st, svc) && QueueMessage(y.st, svc, m).Queued?
    requires svc.None? || MsgType(m.id) == Some(DATA)
    ensures LifeOk(y.(st := QueueMessage(y.st, svc, m).st)) && Later(y.st, QueueMessage(y.st, svc, m).st)
  {
    hide QueueMessage;
    hide Record;
    var r := QueueMessage(y.st, svc, m).st;
    QueuedChanges(y.st, svc, m);
    RecordChanges(y.st, svc, m, r.out);
    SameTable(y, r);
  }

  lemma ConnectKeepsLife(y: System)
    requires LifeOk(y) && ConnectStep(y).Some?
    ensures LifeOk(ConnectStep(y).value) && Later(y.st, ConnectStep(y).value.st)
  {
    hide QueueMessage;
    hide Settled;
    if !y.st.connected && y.st.conn == DISCONNECTED {
      MsgIdIsSum(CONNECT, 0, 0);
      QueuedKeepsTable(y, None, Msg(MakeMsgId(CONNECT, 0, 0), []));
    }
  }

  /** add_service always uses the first entry never used, so ports are never reused. */
  lemma AddUsesNext(st: State)
    requires TableOk(st)
    ensures var (st1, index) := AddService(st);
            && index == (if st.unused == MAX_SERVICES then None else Some(st.unused))
            && st1.nextHandle == st.nextHandle + 1
            && (index.None? ==> st1 == st.(nextHandle := st.nextHandle + 1))
            && (index.Some? ==>
                  && st1.unused == st.unused + 1
                  && var s := NewService(st.nextHandle).(localport := st.unused, state := OPENING);
                     st1.services == st.services[st.unused := Some(s)])
  {
  }

  lemma AddKeepsLife(y: System)
    requires LifeOk(y) && y.st.unused < MAX_SERVICES
    ensures LifeOk(System(AddService(y.st).0, y.clients + [WaitOpen])) && Later(y.st, AddService(y.st).0)
  {
    hide AddService;
    AddUsesNext(y.st);
    var y1 := System(AddService(y.st).0, y.clients + [WaitOpen]);
    forall i | 0 <= i < y1.st.unused
      ensures Settled(y1.st.services[i].value, y1.clients[i])
    {
      if i < y.st.unused {
        assert Settled(y.st.services[i].value, y.clients[i]);
      }
    }
  }

  lemma CreateKeepsLife(y: System, open: seq<byte>)
    requires LifeOk(y) && |open| == OPEN_PAYLOAD_SIZE && CreateStep(y, open).Some?
    ensures LifeOk(CreateStep(y, open).value) && Later(y.st, CreateStep(y, open).value.st)
  {
    if y.st.connected {
      hide QueueMessage;
      hide Settled;
      hide AddService;
      AddUsesNext(y.st);
      var st := AddService(y.st).0;
      if y.st.unused == MAX_SERVICES {
        SameTable(y, st);
      } else {
        AddKeepsLife(y);
        QueuedKeepsTable(System(st, y.clients + [WaitOpen]), None,
                         Msg(MakeMsgId(MessageType.OPEN, st.services[y.st.unused].value.localport, 0), open));
        LaterTrans(y.st, st, CreateStep(y, open).value.st);
      }
    }
  }

  /** The open waiter wakes only in OPEN or CLOSEWAIT. */
  lemma PollOpenKeepsLife(y: System, h: nat)
    requires LifeOk(y) && PollOpenStep(y, h).Some?
    ensures LifeOk(PollOpenStep(y, h).value) && Later(y.st, PollOpenStep(y, h).value.st)
  {
    var i := ServiceFromHandle(y.st, h).value;
    FoundIsBelow(y.st, h, i);
    var s := TheService(y, i);
    assert Settled(s, y.clients[i]);
    if s.removeEvent > 0 {
      ReplaceKeepsLife(y, i, s.(removeEvent := s.removeEvent - 1), Opened);
    }
  }

  /** The close waiter wakes only in FREE. */
  lemma PollCloseKeepsLife(y: System, h: nat)
    requires LifeOk(y) && PollCloseStep(y, h).Some?
    ensures LifeOk(PollCloseStep(y, h).value) && Later(y.st, PollCloseStep(y, h).value.st)
  {
    var i := ServiceFromHandle(y.st, h).value;
    FoundIsBelow(y.st, h, i);
    var s := TheService(y, i);
    assert Settled(s, y.clients[i]);
    if s.removeEvent > 0 {
      ReplaceKeepsLife(y, i, s.(removeEvent := s.removeEvent - 1), Closed);
    }
  }

  lemma CloseMessageIsClose(s: Service)
    requires s.localport < MAX_SERVICES
    ensures MsgType(CloseMessage(s).id) == Some(CLOSE) && SrcPort(CloseMessage(s).id) == s.localport
    ensures DstPort(CloseMessage(s).id) == s.remoteport % 0x1000
    ensures Stride(CloseMessage(s)) <= SLOT_SIZE
  {
    MsgIdRoundTrip(CLOSE, s.localport, s.remoteport % 0x1000);
  }

  /** Closing an open service sends one CLOSE and leaves the service in CLOSESENT; nothing else changes. */
  lemma CloseSends(y: System, i: nat)
    requires SystemOk(y) && i < |y.clients| && y.st.services[i].Some?
    requires var s := TheService(y, i).(closing := true);
             QueueMessage(SetService(y.st, i, s), Some(i), CloseMessage(s)).Queued?
    ensures Stride(CloseMessage(TheService(y, i).(closing := true))) <= SLOT_SIZE
    ensures var s := TheService(y, i).(closing := true);
            var r := QueueMessage(SetService(y.st, i, s), Some(i), CloseMessage(s)).st;
            && r.services == y.st.services[i := Some(s.(state := CLOSESENT))]
            && r.writer == y.st.writer && r.unused == y.st.unused && r.nextHandle == y.st.nextHandle
            && r.conn == y.st.conn && r.connected == y.st.connected
            && Queue(y.st.writer, y.st.out, CloseMessage(s)) == Some(r.out)
            && 0 < r.out.localTxPos
            && r.sent == y.st.sent + [Sent(CloseMessage(s), SlotIndex(r.out.localTxPos - 1))]
  {
    hide QueueMessage;
    hide Queue;
    hide Record;
    hide MsgType;
    hide SrcPort;
    hide CloseMessage;
    hide WriterOk;
    var s := TheService(y, i).(closing := true);
    var st, m := SetService(y.st, i, s), CloseMessage(s);
    CloseMessageIsClose(s);
    QueuedChanges(st, Some(i), m);
    var r := QueueMessage(st, Some(i), m).st;
    RecordChanges(st, Some(i), m, r.out);
  }

  /** A client that may close finds its service open, waiting to be closed, or free. */
  lemma BeginCloseKeepsLife(y: System, i: nat)
    requires LifeOk(y) && i < y.st.unused && y.clients[i] in {Opened, Closed}
    requires TheService(y, i).state !in {FREE, LISTENING, HIDDEN} && BeginClose(y, i).Some?
    ensures LifeOk(BeginClose(y, i).value) && Later(y.st, BeginClose(y, i).value.st)
  {
    hide QueueMessage;
    hide CloseMessage;
    hide WriterOk;
    hide Later;
    var s := TheService(y, i).(closing := true);
    assert Settled(TheService(y, i), y.clients[i]);
    if s.state == CLOSEWAIT {
      ReplaceKeepsLife(y, i, FreeService(s), WaitClose);
    } else {
      CloseSends(y, i);
      CloseSentKeepsLife(y, i, s.(state := CLOSESENT), BeginClose(y, i).value.st);
    }
  }

  lemma CloseSentKeepsLife(y: System, i: nat, s: Service, r: State)
    requires LifeOk(y) && i < y.st.unused && Settled(s, WaitClose) && Evolves(TheService(y, i), s)
    requires s.remoteport <= PORT_FREE
    requires Sized(r) && r.unused == y.st.unused && r.nextHandle == y.st.nextHandle
    requires r.services == y.st.services[i := Some(s)]
    ensures LifeOk(System(r, y.clients[i := WaitClose])) && Later(y.st, r)
  {
    hide Settled;
    ReplaceKeepsLife(y, i, s, WaitClose);
    SameTable(Replace(y, i, s, WaitClose), r);
    LaterTrans(y.st, Replace(y, i, s, WaitClose).st, r);
  }

  lemma CloseKeepsLife(y: System, h: nat)
    requires LifeOk(y) && CloseStep(y, h).Some?
    ensures LifeOk(CloseStep(y, h).value) && Later(y.st, CloseStep(y, h).value.st)
  {
    hide BeginClose;
    hide PollCloseStep;
    var found := ServiceFromHandle(y.st, h);
    if found.Some? {
      FoundIsBelow(y.st, h, found.value);
      var i := found.value;
      if TheService(y, i).state !in {FREE, LISTENING, HIDDEN} {
        BeginCloseKeepsLife(y, i);
        PollCloseKeepsLife(BeginClose(y, i).value, h);
        LaterTrans(y.st, BeginClose(y, i).value.st, CloseStep(y, h).value.st);
      }
    }
  }

  lemma SendKeepsLife(y: System, h: nat, data: seq<byte>)
    requires LifeOk(y) && CalcMsgStride(|data|) <= SLOT_SIZE && SendStep(y, h, data).Some?
    ensures LifeOk(SendStep(y, h, data).value) && Later(y.st, SendStep(y, h, data).value.st)
  {
    hide QueueMessage;
    var found := ServiceFromHandle(y.st, h);
    if found.Some? {
      var i := found.value;
      FoundIsBelow(y.st, h, i);
      var s := TheService(y, i);
      assert Settled(s, y.clients[i]);
      var m := Msg(MakeMsgId(DATA, s.localport, s.remoteport), data);
      if QueueMessage(y.st, Some(i), m).Queued? {
        SentIsData(y.st, i, m);
        QueuedKeepsTable(y, Some(i), m);
      }
    }
  }

  /** A data message goes out with the service's own port as its source, and never while the service is closing. */
  lemma SentIsData(st: State, i: nat, m: Msg)
    requires Sized(st) && i < MAX_SERVICES && st.services[i].Some? && Stride(m) <= SLOT_SIZE
    requires QueueMessage(st, Some(i), m).Queued?
    requires m.id == MakeMsgId(DATA, st.services[i].value.localport, st.services[i].value.remoteport)
    requires !st.services[i].value.closing ==> st.services[i].value.remoteport < PORT_FREE
    ensures MsgType(m.id) == Some(DATA) && SrcPort(m.id) == st.services[i].value.localport
    ensures !st.services[i].value.closing && DstPort(m.id) == st.services[i].value.remoteport
  {
    hide Transmit;
    hide MakeMsgId;
    hide WriterOk;
    TypeSurvives(DATA, st.services[i].value.localport, st.services[i].value.remoteport);
    if st.services[i].value.remoteport < PORT_FREE {
      MsgIdRoundTrip(DATA, st.services[i].value.localport, st.services[i].value.remoteport);
    }
  }

  /** OPENACK, CLOSE and DATA in any order raise the event at most once, and only when the state settles. */
  lemma ReceivedSettles(s: Service, p: Phase, remotePort: nat, data: seq<byte>)
    requires Settled(s, p) && s.state != FREE && remotePort < PORT_FREE
    ensures Settled(OnOpenAck(s, remotePort, data), p)
    ensures Settled(OnClose(s.(closing := true)), p)
  {
  }

  lemma ReceiveKeepsLife(y: System, m: Msg)
    requires LifeOk(y) && ReceiveStep(y, m).Some?
    ensures LifeOk(ReceiveStep(y, m).value) && Later(y.st, ReceiveStep(y, m).value.st)
  {
    var st := Dispatch(y.st, m).st;
    var i := DstPort(m.id);
    var svc := ServiceByPort(y.st, i);
    if svc.Some? && MsgType(m.id) in {Some(CLOSE), Some(OPENACK)} {
      hide Settled;
      hide OnClose;
      hide OnOpenAck;
      hide MsgType;
      assert i < y.st.unused;
      var s := TheService(y, i);
      assert Settled(s, y.clients[i]);
      ReceivedSettles(s, y.clients[i], SrcPort(m.id), m.data);
      ReceivedKeepsIdentity(s, SrcPort(m.id), m.data);
      var s1 := if MsgType(m.id) == Some(CLOSE) then OnClose(s.(closing := true))
                else OnOpenAck(s, SrcPort(m.id), m.data);
      ReplaceKeepsLife(y, i, s1, y.clients[i]);
      SetServiceIsReplace(y, i, s1);
      SameTable(Replace(y, i, s1, y.clients[i]), st);
      LaterTrans(y.st, Replace(y, i, s1, y.clients[i]).st, st);
    } else {
      SameTable(y, st);
    }
  }

  lemma ReceivedKeepsIdentity(s: Service, remotePort: nat, data: seq<byte>)
    requires remotePort < PORT_FREE && s.remoteport <= PORT_FREE
    ensures forall r | r in {OnOpenAck(s, remotePort, data), OnClose(s.(closing := true))} ::
              s.state != FREE ==> Evolves(s, r) && r.remoteport <= PORT_FREE
  {
  }

  lemma LaterRefl(a: State)
    requires TableOk(a)
    ensures Later(a, a)
  {
  }

  lemma StepKeepsLife(y: System, op: Op)
    requires LifeOk(y) && Fits(op) && Step(y, op).Some?
    ensures LifeOk(Step(y, op).value) && Later(y.st, Step(y, op).value.st)
  {
    hide LifeOk;
    hide ConnectStep;
    hide CreateStep;
    hide PollOpenStep;
    hide CloseStep;
    hide PollCloseStep;
    hide SendStep;
    hide ReceiveStep;
    match op
    case Connect => ConnectKeepsLife(y);
    case Create(open) => CreateKeepsLife(y, open);
    case PollOpen(h) => PollOpenKeepsLife(y, h);
    case Close(h) => CloseKeepsLife(y, h);
    case PollClose(h) => PollCloseKeepsLife(y, h);
    case Send(h, data) => SendKeepsLife(y, h, data);
    case Receive(m) => ReceiveKeepsLife(y, m);
  }

  // ----- runs -----

  function Run(y: System, ops: seq<Op>): (r: Option<System>)
    requires LifeOk(y) && forall op | op in ops :: Fits(op)
    ensures r.Some? ==> LifeOk(r.value)
    decreases |ops|
  {
    if ops == [] then Some(y)
    else
      match Step(y, ops[0])
      case None => None
      case Some(y1) => StepKeepsLife(y, ops[0]); Run(y1, ops[1..])
  }

  /** Nothing created, nothing queued, not connected. */
  predicate Initial(y: System) {
    && Sized(y.st) && y.st.out.localTxPos == 0 && y.st.sent == [] && y.clients == []
    && (forall i | 0 <= i < MAX_SERVICES :: y.st.services[i].None?) && y.st.unused == 0
    && y.st.nextHandle == MAX_SERVICES
    && y.st.conn == DISCONNECTED && y.st.connectEvent == 0 && !y.st.connected
    && y.st.previousData == -1 && y.st.dataUse == 0 && y.st.dataQuota == y.st.out.avail - 1
    && y.st.slotQuota == y.st.out.avail / 2 && y.st.messageQuota == y.st.slotQuota * 256
    && (forall i | 0 <= i < MAX_SERVICES :: y.st.quotas[i] == ServiceQuota(0, 0, 0, 0, 0, 0))
  }

  /** The state over slots with nothing written, as it is built. */
  function NewSystem(writer: Variant, out: Side): (y: System)
    requires WriterOk(out) && out.localTxPos == 0
    ensures Initial(y) && LifeOk(y) && y.st.out == out && y.st.writer == writer
  {
    System(State(writer, out, -1, 0, out.avail - 1, seq(MAX_SERVICES, _ => ServiceQuota(0, 0, 0, 0, 0, 0)),
                 seq(MAX_SERVICES, _ => None), 0, MAX_SERVICES, out.avail / 2, out.avail / 2 * 256,
                 DISCONNECTED, 0, false, []),
           [])
  }

  /**
   * Open and close settle. In every state of every run the remove event of a service is raised at most once. A
   * raised event means, to a client waiting for its open, that the service is open or already closed by the other
   * side, and to a client waiting for its close that the service is free; so neither wait ever fails.
   */
  lemma OpenAndCloseSettle(y: System, ops: seq<Op>, i: nat)
    requires Initial(y) && (forall op | op in ops :: Fits(op)) && Run(y, ops).Some?
    requires i < Run(y, ops).value.st.unused
    ensures var r := Run(y, ops).value;
            var s := TheService(r, i);
            && s.removeEvent <= 1
            && (r.clients[i] == WaitOpen && s.removeEvent == 1 ==> s.state in {ServiceState.OPEN, CLOSEWAIT})
            && (r.clients[i] == WaitClose && s.removeEvent == 1 ==> s.state == FREE)
            && (r.clients[i] == Closed ==> s.state == FREE)
            && (s.remoteport == PORT_FREE <==> s.state !in {ServiceState.OPEN, CLOSESENT})
            && r.clients[i] !in {OpenFailed, CloseFailed}
  {
    var r := Run(y, ops).value;
    assert Settled(TheService(r, i), r.clients[i]);
  }

  lemma {:induction false} RunIsLater(y: System, ops: seq<Op>)
    requires LifeOk(y) && (forall op | op in ops :: Fits(op)) && Run(y, ops).Some?
    ensures Later(y.st, Run(y, ops).value.st)
    decreases |ops|
  {
    if ops == [] {
      LaterRefl(y.st);
    } else {
      hide Step;
      hide Later;
      hide LifeOk;
      StepKeepsLife(y, ops[0]);
      var y1 := Step(y, ops[0]).value;
      RunIsLater(y1, ops[1..]);
      LaterTrans(y.st, y1.st, Run(y1, ops[1..]).value.st);
    }
  }

  /**
   * The service table over a run. Entries are never dropped or reused: the handle of a service finds that same
   * service ever after, under the same port, different services have different handles, and a service that has
   * become free stays free.
   */
  lemma ServicesStay(y: System, ops: seq<Op>, i: nat, j: nat)
    requires LifeOk(y) && (forall op | op in ops :: Fits(op)) && Run(y, ops).Some?
    requires i < y.st.unused && j < Run(y, ops).value.st.unused
    ensures var r := Run(y, ops).value;
            && y.st.unused <= r.st.unused <= MAX_SERVICES
            && (r.st.services[j].value.handle == TheService(y, i).handle <==> j == i)
            && ServiceFromHandle(r.st, TheService(y, i).handle) == Some(i)
            && TheService(r, i).localport == i
            && (TheService(y, i).state == FREE ==> TheService(r, i).state == FREE)
            && (TheService(y, i).closing ==> TheService(r, i).closing)
  {
    RunIsLater(y, ops);
    var r := Run(y, ops).value;
    HandleFinds(r.st, i);
    assert r.st.services[j].Some? && y.st.services[i].Some? && r.st.services[i].Some?;
  }
}
