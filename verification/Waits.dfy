/** When the waits of open and close end: exactly when the other side has answered. */
module Waits {
  import opened Config
  import opened SlotMessage
  import opened Transport
  import opened Service
  import opened State
  import opened System
  import opened Lifecycle

  /** The slot handler dispatches a message of a type in `types` for the port `i`. */
  predicate Hears(op: Op, i: nat, types: set<MessageType>) {
    op.Receive? && DstPort(op.m.id) == i && MsgType(op.m.id).Some? && MsgType(op.m.id).value in types
  }

  const ANSWERS: set<MessageType> := {OPENACK, CLOSE}

  predicate HasHeard(ops: seq<Op>, i: nat, types: set<MessageType>) {
    exists k | 0 <= k < |ops| :: Hears(ops[k], i, types)
  }

  /** The event the waits are about is raised. */
  predicate Raised(y: System, i: nat)
    requires SystemOk(y) && i < MAX_SERVICES && y.st.services[i].Some?
  {
    TheService(y, i).removeEvent == 1
  }

  predicate Stays(y: System, y1: System, i: nat) {
    && i < |y.clients| && i < |y1.clients| && i < |y.st.services| && i < |y1.st.services|
    && y1.clients[i] == y.clients[i] && y1.st.services[i] == y.st.services[i]
  }

  // ----- one step, seen from a service that waits -----

  lemma QueuedStays(y: System, svc: Option<nat>, m: Msg, i: nat)
    requires SystemOk(y) && i < y.st.unused && Stride(m) <= SLOT_SIZE && Known(y.st, svc)
    requires QueueMessage(y.st, svc, m).Queued? && (svc.Some? && MsgType(m.id) == Some(CLOSE) ==> svc != Some(i))
    ensures QueueMessage(y.st, svc, m).st.services[i] == y.st.services[i]
  {
    hide QueueMessage;
    hide Record;
    hide MsgType;
    QueuedChanges(y.st, svc, m);
    RecordChanges(y.st, svc, m, QueueMessage(y.st, svc, m).st.out);
  }

  lemma ConnectStays(y: System, i: nat)
    requires LifeOk(y) && i < y.st.unused && ConnectStep(y).Some?
    ensures Stays(y, ConnectStep(y).value, i)
  {
    hide QueueMessage;
    hide LifeOk;
    hide MakeMsgId;
    if !y.st.connected && y.st.conn == DISCONNECTED {
      MsgIdIsSum(CONNECT, 0, 0);
      QueuedStays(y, None, Msg(MakeMsgId(CONNECT, 0, 0), []), i);
    }
  }

  /** A new service waits with its event at rest. */
  lemma CreateStays(y: System, open: seq<byte>, i: nat)
    requires LifeOk(y) && |open| == OPEN_PAYLOAD_SIZE && CreateStep(y, open).Some?
    requires i < CreateStep(y, open).value.st.unused
    ensures if i < y.st.unused then Stays(y, CreateStep(y, open).value, i)
            else TheService(CreateStep(y, open).value, i).state == OPENING
                 && CreateStep(y, open).value.clients[i] == WaitOpen
  {
    hide QueueMessage;
    hide MakeMsgId;
    if y.st.connected {
      AddUsesNext(y.st);
      var (st, index) := AddService(y.st);
      if index.Some? {
        AddedServices(y.st);
        hide AddService;
        var m := Msg(MakeMsgId(MessageType.OPEN, st.services[index.value].value.localport, 0), open);
        QueuedChanges(st, None, m);
        RecordChanges(st, None, m, QueueMessage(st, None, m).st.out);
      }
    }
  }

  lemma AddedServices(st: State)
    requires TableOk(st) && AddService(st).1.Some?
    ensures var r := AddService(st).0;
            && st.unused < MAX_SERVICES && r.unused == st.unused + 1
            && (forall i | 0 <= i < st.unused :: r.services[i] == st.services[i])
            && r.services[st.unused].Some? && r.services[st.unused].value.state == OPENING
  {
    AddUsesNext(st);
  }

  lemma SendStays(y: System, h: nat, data: seq<byte>, i: nat)
    requires LifeOk(y) && i < y.st.unused && CalcMsgStride(|data|) <= SLOT_SIZE && SendStep(y, h, data).Some?
    ensures Stays(y, SendStep(y, h, data).value, i)
  {
    hide QueueMessage;
    hide MakeMsgId;
    var found := ServiceFromHandle(y.st, h);
    if found.Some? {
      FoundIsBelow(y.st, h, found.value);
      var s := TheService(y, found.value);
      assert Settled(s, y.clients[found.value]);
      var m := Msg(MakeMsgId(DATA, s.localport, s.remoteport), data);
      if QueueMessage(y.st, Some(found.value), m).Queued? {
        SentIsData(y.st, found.value, m);
        QueuedStays(y, Some(found.value), m, i);
      }
    }
  }

  /** Another client's close leaves a waiting service alone. */
  lemma CloseStays(y: System, h: nat, i: nat)
    requires LifeOk(y) && i < y.st.unused && y.clients[i] in {WaitOpen, WaitClose} && CloseStep(y, h).Some?
    ensures Stays(y, CloseStep(y, h).value, i)
  {
    hide PollCloseStep;
    hide BeginClose;
    var found := ServiceFromHandle(y.st, h);
    if found.Some? {
      var j := found.value;
      FoundIsBelow(y.st, h, j);
      if TheService(y, j).state !in {FREE, LISTENING, HIDDEN} {
        var y1 := BeginClose(y, j).value;
        BeginCloseOnly(y, j, i);
        BeginCloseKeepsLife(y, j);
        HandleFinds(y1.st, j);
        assert y1.st.services[j].value.handle == h;
        PollStays(y1, h, i, j);
      }
    }
  }

  lemma BeginCloseOnly(y: System, j: nat, i: nat)
    requires LifeOk(y) && j < y.st.unused && i < y.st.unused && i != j && y.clients[j] in {Opened, Closed}
    requires TheService(y, j).state !in {FREE, LISTENING, HIDDEN} && BeginClose(y, j).Some?
    ensures Stays(y, BeginClose(y, j).value, i)
  {
    hide QueueMessage;
    hide CloseMessage;
    hide WriterOk;
    var s := TheService(y, j).(closing := true);
    assert Settled(TheService(y, j), y.clients[j]);
    if s.state != CLOSEWAIT {
      CloseSends(y, j);
    }
  }

  lemma PollStays(y: System, h: nat, i: nat, j: nat)
    requires SystemOk(y) && ServiceFromHandle(y.st, h) == Some(j) && i < y.st.unused && i != j
    ensures PollOpenStep(y, h).Some? ==> Stays(y, PollOpenStep(y, h).value, i)
    ensures PollCloseStep(y, h).Some? ==> Stays(y, PollCloseStep(y, h).value, i)
  {
  }

  /** A poll ends its own wait exactly if the event is raised, and no other's. */
  lemma PollEnds(y: System, h: nat, i: nat)
    requires LifeOk(y) && i < y.st.unused
    ensures PollOpenStep(y, h).Some? ==>
              var y1 := PollOpenStep(y, h).value;
              Stays(y, y1, i) || (y.clients[i] == WaitOpen && Raised(y, i) && y1.clients[i] == Opened)
    ensures PollCloseStep(y, h).Some? ==>
              var y1 := PollCloseStep(y, h).value;
              Stays(y, y1, i) || (y.clients[i] == WaitClose && Raised(y, i) && y1.clients[i] == Closed)
  {
    var found := ServiceFromHandle(y.st, h);
    if found.Some? {
      FoundIsBelow(y.st, h, found.value);
      if found.value != i {
        PollStays(y, h, i, found.value);
      } else {
        assert Settled(TheService(y, i), y.clients[i]);
        hide Settled;
      }
    }
  }

  /** A message settles a waiting service exactly if it is of the right type and for its port. */
  lemma ReceiveSettles(y: System, m: Msg, i: nat)
    requires LifeOk(y) && i < y.st.unused && y.clients[i] in {WaitOpen, WaitClose} && ReceiveStep(y, m).Some?
    ensures var y1 := ReceiveStep(y, m).value;
            && y1.clients == y.clients
            && (y.clients[i] == WaitOpen ==>
                  (TheService(y1, i).state == OPENING <==>
                     TheService(y, i).state == OPENING && !Hears(Receive(m), i, ANSWERS)))
            && (y.clients[i] == WaitClose ==>
                  (TheService(y1, i).state == FREE <==>
                     TheService(y, i).state == FREE || Hears(Receive(m), i, {CLOSE})))
  {
    hide MsgType;
    hide WriterOk;
    assert Settled(TheService(y, i), y.clients[i]);
  }

  /** A raised event and the state say the same of a service that waits. */
  lemma RaisedIs(y: System, i: nat)
    requires LifeOk(y) && i < y.st.unused
    ensures y.clients[i] == WaitOpen ==> (Raised(y, i) <==> TheService(y, i).state != OPENING)
    ensures y.clients[i] == WaitClose ==> (Raised(y, i) <==> TheService(y, i).state == FREE)
  {
    assert Settled(TheService(y, i), y.clients[i]);
  }

  lemma NoPortNoAnswer(y: System, op: Op, i: nat)
    requires LifeOk(y) && Fits(op) && Step(y, op).Some? && y.st.unused <= i < MAX_SERVICES
    ensures !Hears(op, i, ANSWERS)
  {
    hide WriterOk;
    hide MsgType;
    assert y.st.services[i].None?;
  }

  lemma OpenWaitStep(y: System, op: Op, i: nat)
    requires LifeOk(y) && Fits(op) && Step(y, op).Some? && LifeOk(Step(y, op).value)
    requires i < Step(y, op).value.st.unused && (i < y.st.unused ==> y.clients[i] == WaitOpen)
    ensures var y1 := Step(y, op).value;
            if i >= y.st.unused then y1.clients[i] == WaitOpen && !Raised(y1, i) && !Hears(op, i, ANSWERS)
            else
              || (y1.clients[i] == WaitOpen && (Raised(y1, i) <==> Raised(y, i) || Hears(op, i, ANSWERS)))
              || (y1.clients[i] == Opened && Raised(y, i))
  {
    var y1 := Step(y, op).value;
    RaisedIs(y1, i);
    if i >= y.st.unused {
      NoPortNoAnswer(y, op, i);
      OnlyCreateAdds(y, op);
      CreateStays(y, op.open, i);
    } else {
      RaisedIs(y, i);
      hide LifeOk;
      match op {
        case Connect => ConnectStays(y, i);
        case Create(open) => CreateStays(y, open, i);
        case PollOpen(h) => PollEnds(y, h, i);
        case Close(h) => CloseStays(y, h, i);
        case PollClose(h) => PollEnds(y, h, i);
        case Send(h, data) => SendStays(y, h, data, i);
        case Receive(m) => ReceiveSettles(y, m, i);
      }
    }
  }

  lemma OnlyCreateAdds(y: System, op: Op)
    requires LifeOk(y) && Fits(op) && Step(y, op).Some? && Step(y, op).value.st.unused != y.st.unused
    ensures op.Create?
  {
    hide QueueMessage;
    hide LifeOk;
    hide WriterOk;
    if op.Close? {
      hide BeginClose;
      var found := ServiceFromHandle(y.st, op.handle);
      if found.Some? && TheService(y, found.value).state !in {FREE, LISTENING, HIDDEN} {
        BeginCloseAddsNone(y, found.value);
      }
    }
  }

  lemma BeginCloseAddsNone(y: System, i: nat)
    requires SystemOk(y) && i < |y.clients| && y.st.services[i].Some? && BeginClose(y, i).Some?
    ensures BeginClose(y, i).value.st.unused == y.st.unused
  {
    hide QueueMessage;
    CloseMessageIsClose(TheService(y, i).(closing := true));
    hide CloseMessage;
  }

  lemma CloseWaitStep(y: System, op: Op, i: nat)
    requires LifeOk(y) && Fits(op) && Step(y, op).Some? && LifeOk(Step(y, op).value)
    requires i < y.st.unused <= Step(y, op).value.st.unused && y.clients[i] == WaitClose
    ensures var y1 := Step(y, op).value;
            || (y1.clients[i] == WaitClose && (Raised(y1, i) <==> Raised(y, i) || Hears(op, i, {CLOSE})))
            || (y1.clients[i] == Closed && Raised(y, i))
  {
    var y1 := Step(y, op).value;
    RaisedIs(y, i);
    RaisedIs(y1, i);
    hide LifeOk;
    match op {
      case Connect => ConnectStays(y, i);
      case Create(open) => CreateStays(y, open, i);
      case PollOpen(h) => PollEnds(y, h, i);
      case Close(h) => CloseStays(y, h, i);
      case PollClose(h) => PollEnds(y, h, i);
      case Send(h, data) => SendStays(y, h, data, i);
      case Receive(m) => ReceiveSettles(y, m, i);
    }
  }

  /** A client never waits for its open again, is not open again once it closes, and a closed one stays closed. */
  lemma ClientsMoveOn(y: System, op: Op, i: nat)
    requires LifeOk(y) && Fits(op) && Step(y, op).Some? && i < y.st.unused <= |Step(y, op).value.clients|
    ensures var p, p1 := y.clients[i], Step(y, op).value.clients[i];
            && (p != WaitOpen ==> p1 != WaitOpen) && (p == Closed ==> p1 == Closed)
            && (p !in {WaitOpen, Opened} ==> p1 !in {WaitOpen, Opened})
  {
    hide QueueMessage;
    hide WriterOk;
    assert Settled(TheService(y, i), y.clients[i]);
    if op.Close? {
      hide PollCloseStep;
      hide BeginClose;
      var found := ServiceFromHandle(y.st, op.handle);
      if found.Some? && TheService(y, found.value).state !in {FREE, LISTENING, HIDDEN} {
        FoundIsBelow(y.st, op.handle, found.value);
        assert Settled(TheService(y, found.value), y.clients[found.value]);
        BeginCloseClients(y, found.value);
        PollCloseClients(BeginClose(y, found.value).value, op.handle, i);
      }
    }
  }

  lemma BeginCloseClients(y: System, i: nat)
    requires SystemOk(y) && i < |y.clients| && y.st.services[i].Some? && BeginClose(y, i).Some?
    ensures BeginClose(y, i).value.clients == y.clients[i := WaitClose]
  {
    hide QueueMessage;
    CloseMessageIsClose(TheService(y, i).(closing := true));
    hide CloseMessage;
  }

  lemma PollCloseClients(y: System, h: nat, i: nat)
    requires SystemOk(y) && i < |y.clients| && PollCloseStep(y, h).Some?
    ensures var r := PollCloseStep(y, h).value;
            && |r.clients| == |y.clients|
            && (r.clients[i] == y.clients[i] || (y.clients[i] == WaitClose && r.clients[i] in {Closed, CloseFailed}))
  {
  }

  lemma {:induction false} ClientsStayOn(y: System, ops: seq<Op>, i: nat)
    requires LifeOk(y) && (forall op | op in ops :: Fits(op)) && Run(y, ops).Some? && i < y.st.unused
    ensures i < |Run(y, ops).value.clients|
    ensures var p, p1 := y.clients[i], Run(y, ops).value.clients[i];
            && (p != WaitOpen ==> p1 != WaitOpen) && (p == Closed ==> p1 == Closed)
            && (p !in {WaitOpen, Opened} ==> p1 !in {WaitOpen, Opened})
    decreases |ops|
  {
    hide Step;
    if ops != [] {
      StepKeepsLife(y, ops[0]);
      ClientsMoveOn(y, ops[0], i);
      ClientsStayOn(Step(y, ops[0]).value, ops[1..], i);
    }
  }

  // ----- runs -----

  lemma HeardFirstOrLater(ops: seq<Op>, i: nat, types: set<MessageType>)
    requires ops != []
    ensures HasHeard(ops, i, types) <==> Hears(ops[0], i, types) || HasHeard(ops[1..], i, types)
  {
    hide Hears;
    if HasHeard(ops[1..], i, types) {
      var k :| 0 <= k < |ops[1..]| && Hears(ops[1..][k], i, types);
      assert Hears(ops[k + 1], i, types);
    }
    if HasHeard(ops, i, types) && !Hears(ops[0], i, types) {
      var k :| 0 <= k < |ops| && Hears(ops[k], i, types);
      assert Hears(ops[1..][k - 1], i, types);
    }
  }

  /**
   * Exactly when an open can return. From before the service is created, or while its open waits: the event is
   * raised if and only if an OPENACK or a CLOSE for its port has been dispatched, and no open returns without.
   */
  lemma {:induction false} OpenWaitEndsIff(y: System, ops: seq<Op>, i: nat)
    requires LifeOk(y) && (forall op | op in ops :: Fits(op)) && Run(y, ops).Some?
    requires i < Run(y, ops).value.st.unused && (i < y.st.unused ==> y.clients[i] == WaitOpen)
    ensures var r := Run(y, ops).value;
            var answered := (i < y.st.unused && Raised(y, i)) || HasHeard(ops, i, ANSWERS);
            if r.clients[i] == WaitOpen then Raised(r, i) <==> answered else answered
    decreases |ops|
  {
    hide Step;
    hide Raised;
    hide Hears;
    if ops != [] {
      var y1 := Step(y, ops[0]).value;
      StepKeepsLife(y, ops[0]);
      HeardFirstOrLater(ops, i, ANSWERS);
      hide HasHeard;
      if i < y1.st.unused {
        OpenWaitStep(y, ops[0], i);
        if y1.clients[i] == WaitOpen {
          OpenWaitEndsIff(y1, ops[1..], i);
        } else {
          ClientsStayOn(y1, ops[1..], i);
        }
      } else {
        NoPortNoAnswer(y, ops[0], i);
        OpenWaitEndsIff(y1, ops[1..], i);
      }
    }
  }

  /**
   * Exactly when a close can return. From a waiting close on: the event is raised if and only if it already was, or
   * a CLOSE for the port has been dispatched since, and no close returns without.
   */
  lemma {:induction false} CloseWaitEndsIff(y: System, ops: seq<Op>, i: nat)
    requires LifeOk(y) && (forall op | op in ops :: Fits(op)) && Run(y, ops).Some?
    requires i < y.st.unused && y.clients[i] == WaitClose
    ensures var r := Run(y, ops).value;
            var answered := Raised(y, i) || HasHeard(ops, i, {CLOSE});
            && y.st.unused <= r.st.unused
            && (if r.clients[i] == WaitClose then Raised(r, i) <==> answered else answered)
    decreases |ops|
  {
    hide Step;
    hide Raised;
    hide Hears;
    RunIsLater(y, ops);
    if ops != [] {
      var y1 := Step(y, ops[0]).value;
      StepKeepsLife(y, ops[0]);
      HeardFirstOrLater(ops, i, {CLOSE});
      hide HasHeard;
      CloseWaitStep(y, ops[0], i);
      if y1.clients[i] == WaitClose {
        CloseWaitEndsIff(y1, ops[1..], i);
      } else {
        ClientsStayOn(y1, ops[1..], i);
      }
    }
  }

  /** A close of a service that the other side has closed frees it and raises its event at once. */
  lemma CloseOfClosedFrees(y: System, i: nat)
    requires LifeOk(y) && i < y.st.unused && y.clients[i] == Opened && TheService(y, i).state == CLOSEWAIT
    ensures BeginClose(y, i)
            == Some(Replace(y, i, TheService(y, i).(closing := true, state := FREE, removeEvent := 1), WaitClose))
  {
    hide WriterOk;
    assert Settled(TheService(y, i), y.clients[i]);
  }

  /** A close of any other service sends its CLOSE and leaves its event at rest. */
  lemma CloseOfOpenWaits(y: System, i: nat)
    requires LifeOk(y) && i < y.st.unused && y.clients[i] == Opened && TheService(y, i).state != CLOSEWAIT
    requires BeginClose(y, i).Some?
    ensures var y1 := BeginClose(y, i).value;
            && y1.st.unused == y.st.unused && y1.clients == y.clients[i := WaitClose]
            && y1.st.services[i] == Some(TheService(y, i).(closing := true, state := CLOSESENT))
            && TheService(y, i).removeEvent == 0
  {
    hide QueueMessage;
    hide CloseMessage;
    hide WriterOk;
    assert Settled(TheService(y, i), y.clients[i]);
    CloseSends(y, i);
  }

  /**
   * What a close finds: one of a service that the other side has closed while it was being opened returns at once;
   * any other waits with its event at rest, whether or not a CLOSE has arrived before.
   */
  lemma CloseBegins(y: System, i: nat)
    requires LifeOk(y) && i < y.st.unused && y.clients[i] == Opened
    requires CloseStep(y, TheService(y, i).handle).Some?
    ensures var y1 := CloseStep(y, TheService(y, i).handle).value;
            && y1.st.unused == y.st.unused && LifeOk(y1)
            && (y1.clients[i] == Closed <==> TheService(y, i).state == CLOSEWAIT)
            && (y1.clients[i] != Closed ==> y1.clients[i] == WaitClose && !Raised(y1, i))
  {
    HandleFinds(y.st, i);
    CloseKeepsLife(y, TheService(y, i).handle);
    assert Settled(TheService(y, i), y.clients[i]);
    if TheService(y, i).state == CLOSEWAIT {
      CloseOfClosedFrees(y, i);
    } else {
      CloseOfOpenWaits(y, i);
    }
    BeginCloseKeepsLife(y, i);
    HandleFinds(BeginClose(y, i).value.st, i);
    hide BeginClose;
    hide LifeOk;
    hide TableOk;
    hide Settled;
  }
}
