/** The grammar of everything the ARM side sends. */
module Trace {
  import opened Config
  import opened SlotMessage
  import opened Transport
  import opened Service
  import opened State
  import opened System
  import opened Lifecycle

  // ----- the grammar -----

  /** The type of a message, if it belongs to the service with local port `p`. */
  function TypeFor(m: Msg, p: nat): seq<MessageType> {
    match MsgType(m.id)
    case Some(t) => if t !in {CONNECT, PADDING} && SrcPort(m.id) == p then [t] else []
    case None => []
  }

  /** The types of all messages of one port, in order. */
  function PortTypes(sent: seq<Sent>, p: nat): seq<MessageType> {
    if sent == [] then [] else PortTypes(sent[..|sent| - 1], p) + TypeFor(sent[|sent| - 1].m, p)
  }

  /** A prefix of OPEN DATA* CLOSE. */
  predicate Conforms(ts: seq<MessageType>) {
    ts != [] ==>
      && ts[0] == MessageType.OPEN
      && forall k | 0 < k < |ts| :: ts[k] == DATA || (ts[k] == CLOSE && k == |ts| - 1)
  }

  predicate Unclosed(ts: seq<MessageType>) {
    Conforms(ts) && ts != [] && ts[|ts| - 1] != CLOSE
  }

  /** Nothing, or one CONNECT followed by messages that conform port by port. */
  ghost predicate Grammar(sent: seq<Sent>) {
    && (forall k | 0 <= k < |sent| :: MsgType(sent[k].m.id) == Some(CONNECT) <==> k == 0)
    && (forall p: nat :: Conforms(PortTypes(sent, p)))
  }

  lemma PortTypesOneMore(sent: seq<Sent>, x: Sent, p: nat)
    ensures PortTypes(sent + [x], p) == PortTypes(sent, p) + TypeFor(x.m, p)
  {
    assert (sent + [x])[..|sent|] == sent;
  }

  // ----- what one step may send -----

  /** Sending `x` on the way from `a` to `b` is in turn. */
  predicate InTurn(a: State, b: State, x: Sent) {
    && |a.services| == MAX_SERVICES == |b.services|
    && b.conn != DISCONNECTED
    && var p := SrcPort(x.m.id);
       match MsgType(x.m.id)
       case Some(CONNECT) => a.conn == DISCONNECTED && b.unused == a.unused
       case Some(OPEN) => a.connected && p == a.unused && b.unused == a.unused + 1
       case Some(DATA) => p < a.unused && b.unused == a.unused && a.services[p].Some?
                          && Live(a.services[p].value) && !a.services[p].value.closing
       case Some(CLOSE) => p < a.unused && b.unused == a.unused && a.services[p].Some? && Live(a.services[p].value)
                           && b.services[p].Some? && !Live(b.services[p].value)
       case _ => false
  }

  /** The outgoing slots change by queueing `m`, and in no other way. */
  predicate Extends(v: Variant, a: Side, b: Side, m: Msg) {
    WriterOk(a) && Stride(m) <= SLOT_SIZE && Queue(v, a, m) == Some(b)
  }

  /** A step sends nothing, or one message in its turn. */
  predicate Moves(a: State, b: State) {
    && (a.conn != DISCONNECTED ==> b.conn != DISCONNECTED)
    && (b.connected ==> b.conn != DISCONNECTED)
    && b.writer == a.writer
    && if b.sent == a.sent
       then b.out == a.out && b.unused == a.unused && (b.conn == DISCONNECTED <==> a.conn == DISCONNECTED)
       else |b.sent| == |a.sent| + 1 && b.sent == a.sent + [b.sent[|a.sent|]] && InTurn(a, b, b.sent[|a.sent|])
            && Extends(a.writer, a.out, b.out, b.sent[|a.sent|].m)
            && b.sent[|a.sent|].slot == SlotIndex(b.out.localTxPos - 1)
  }

  predicate ConnOk(st: State) {
    st.connected ==> st.conn != DISCONNECTED
  }

  lemma ConnectMoves(y: System)
    requires LifeOk(y) && ConnOk(y.st) && ConnectStep(y).Some?
    ensures Moves(y.st, ConnectStep(y).value.st)
  {
    hide QueueMessage;
    hide LifeOk;
    hide MakeMsgId;
    hide MsgType;
    hide SrcPort;
    hide DstPort;
    hide WriterOk;
    hide Record;
    if !y.st.connected && y.st.conn == DISCONNECTED {
      var m := Msg(MakeMsgId(CONNECT, 0, 0), []);
      MsgIdRoundTrip(CONNECT, 0, 0);
      QueuedChanges(y.st, None, m);
      RecordChanges(y.st, None, m, QueueMessage(y.st, None, m).st.out);
    }
  }

  lemma CreateMoves(y: System, open: seq<byte>)
    requires LifeOk(y) && ConnOk(y.st) && |open| == OPEN_PAYLOAD_SIZE && CreateStep(y, open).Some?
    ensures CreateStep(y, open).value.st.unused != y.st.unused || CreateStep(y, open).value.st.sent == y.st.sent
    ensures Moves(y.st, CreateStep(y, open).value.st)
  {
    hide QueueMessage;
    hide AddService;
    hide MakeMsgId;
    if y.st.connected {
      AddUsesNext(y.st);
      var (st, index) := AddService(y.st);
      AddKeepsRest(y.st);
      if index.Some? {
        var m := Msg(MakeMsgId(MessageType.OPEN, st.services[index.value].value.localport, 0), open);
        MsgIdRoundTrip(MessageType.OPEN, y.st.unused, 0);
        QueuedChanges(st, None, m);
        RecordChanges(st, None, m, QueueMessage(st, None, m).st.out);
      }
    }
  }

  lemma AddKeepsRest(st: State)
    requires TableOk(st)
    ensures var r := AddService(st).0;
            && r.sent == st.sent && r.conn == st.conn && r.connected == st.connected && r.out == st.out
            && r.writer == st.writer
  {
  }

  lemma PollsMove(y: System, h: nat)
    requires SystemOk(y) && ConnOk(y.st)
    ensures PollOpenStep(y, h).Some? ==> Moves(y.st, PollOpenStep(y, h).value.st)
    ensures PollCloseStep(y, h).Some? ==>
              && Moves(y.st, PollCloseStep(y, h).value.st)
              && PollCloseStep(y, h).value.st.sent == y.st.sent && PollCloseStep(y, h).value.st.unused == y.st.unused
              && PollCloseStep(y, h).value.st.out == y.st.out
              && PollCloseStep(y, h).value.st.conn == y.st.conn
              && PollCloseStep(y, h).value.st.connected == y.st.connected
              && PollCloseStep(y, h).value.st.writer == y.st.writer
  {
    hide Sized;
  }

  lemma BeginCloseMoves(y: System, i: nat)
    requires LifeOk(y) && i < y.st.unused && y.clients[i] in {Opened, Closed}
    requires ConnOk(y.st) && y.st.conn != DISCONNECTED
    requires TheService(y, i).state !in {FREE, LISTENING, HIDDEN} && BeginClose(y, i).Some?
    ensures Moves(y.st, BeginClose(y, i).value.st)
  {
    hide QueueMessage;
    hide CloseMessage;
    hide WriterOk;
    var s := TheService(y, i).(closing := true);
    assert Settled(TheService(y, i), y.clients[i]);
    if s.state != CLOSEWAIT {
      CloseSends(y, i);
      CloseMessageIsClose(s);
    }
  }

  lemma CloseMoves(y: System, h: nat)
    requires LifeOk(y) && ConnOk(y.st) && CloseStep(y, h).Some?
    requires y.st.unused > 0 ==> y.st.conn != DISCONNECTED
    ensures Moves(y.st, CloseStep(y, h).value.st)
  {
    hide BeginClose;
    hide PollCloseStep;
    hide InTurn;
    var found := ServiceFromHandle(y.st, h);
    if found.Some? {
      var i := found.value;
      FoundIsBelow(y.st, h, i);
      if TheService(y, i).state !in {FREE, LISTENING, HIDDEN} {
        BeginCloseMoves(y, i);
        var y1 := BeginClose(y, i).value;
        BeginCloseKeepsLife(y, i);
        PollsMove(y1, h);
        ClosePollStaysInTurn(y.st, y1, h);
      }
    }
  }

  lemma ClosePollStaysInTurn(a: State, y1: System, h: nat)
    requires LifeOk(y1) && ConnOk(y1.st) && PollCloseStep(y1, h).Some? && Moves(a, y1.st)
    ensures Moves(a, PollCloseStep(y1, h).value.st)
  {
    hide Extends;
    hide MsgType;
    hide SrcPort;
    PollCloseKeepsLife(y1, h);
    PollsMove(y1, h);
  }

  lemma SendMoves(y: System, h: nat, data: seq<byte>)
    requires LifeOk(y) && ConnOk(y.st) && CalcMsgStride(|data|) <= SLOT_SIZE && SendStep(y, h, data).Some?
    requires y.st.unused > 0 ==> y.st.conn != DISCONNECTED
    ensures Moves(y.st, SendStep(y, h, data).value.st)
  {
    hide QueueMessage;
    hide WriterOk;
    hide MakeMsgId;
    var found := ServiceFromHandle(y.st, h);
    if found.Some? {
      var i := found.value;
      FoundIsBelow(y.st, h, i);
      var s := TheService(y, i);
      assert Settled(s, y.clients[i]);
      var m := Msg(MakeMsgId(DATA, s.localport, s.remoteport), data);
      if QueueMessage(y.st, Some(i), m).Queued? {
        SentIsData(y.st, i, m);
        QueuedChanges(y.st, Some(i), m);
        RecordChanges(y.st, Some(i), m, QueueMessage(y.st, Some(i), m).st.out);
      }
    }
  }

  /**
   * What a client's send does: to a service that is not closing it sends exactly one message, with the data given,
   * from the service's port to its remote port, while the service is open; otherwise it does nothing.
   */
  lemma SendSends(y: System, h: nat, data: seq<byte>)
    requires LifeOk(y) && CalcMsgStride(|data|) <= SLOT_SIZE && SendStep(y, h, data).Some?
    ensures var r := SendStep(y, h, data).value;
            var found := ServiceFromHandle(y.st, h);
            if found.Some? && !TheService(y, found.value).closing
            then
              var s := TheService(y, found.value);
              var n := |y.st.sent|;
              && s.state == ServiceState.OPEN
              && |r.st.sent| == n + 1 && r.st.sent[..n] == y.st.sent
              && r.st.sent[n].m.data == data && MsgType(r.st.sent[n].m.id) == Some(DATA)
              && SrcPort(r.st.sent[n].m.id) == found.value && DstPort(r.st.sent[n].m.id) == s.remoteport
            else r == y
  {
    hide Transmit;
    hide WriterOk;
    hide MakeMsgId;
    var found := ServiceFromHandle(y.st, h);
    if found.Some? {
      var i := found.value;
      FoundIsBelow(y.st, h, i);
      var s := TheService(y, i);
      assert Settled(s, y.clients[i]);
      var m := Msg(MakeMsgId(DATA, s.localport, s.remoteport), data);
      DataIsData(s);
      if QueueMessage(y.st, Some(i), m).Queued? {
        SentIsData(y.st, i, m);
        QueuedChanges(y.st, Some(i), m);
        RecordChanges(y.st, Some(i), m, QueueMessage(y.st, Some(i), m).st.out);
      }
    }
  }

  /** The type of a data message survives even an unset remote port. */
  lemma DataIsData(s: Service)
    requires s.localport < MAX_SERVICES && s.remoteport <= PORT_FREE
    ensures MsgType(MakeMsgId(DATA, s.localport, s.remoteport)) == Some(DATA)
  {
    TypeSurvives(DATA, s.localport, s.remoteport);
  }

  lemma ReceiveMoves(y: System, m: Msg)
    requires LifeOk(y) && ConnOk(y.st) && ReceiveStep(y, m).Some?
    ensures Moves(y.st, ReceiveStep(y, m).value.st)
  {
    hide MsgType;
    hide OnClose;
    hide OnOpenAck;
    hide Sized;
  }

  /** Sending agrees with the state of the services, in every state. */
  ghost predicate TraceOk(st: State) {
    && ConnOk(st) && |st.services| == MAX_SERVICES && st.unused <= MAX_SERVICES
    && (st.conn == DISCONNECTED <==> st.sent == [])
    && (st.unused > 0 ==> st.conn != DISCONNECTED)
    && (forall k | 0 <= k < |st.sent| :: MsgType(st.sent[k].m.id) == Some(CONNECT) <==> k == 0)
    && (forall i | 0 <= i < st.unused :: st.services[i].Some? && Conforms(PortTypes(st.sent, i)))
    && (forall i | 0 <= i < st.unused :: Live(st.services[i].value) ==> Unclosed(PortTypes(st.sent, i)))
    && (forall p: nat | st.unused <= p :: PortTypes(st.sent, p) == [])
  }

  lemma StepMoves(y: System, op: Op)
    requires LifeOk(y) && Fits(op) && Step(y, op).Some? && TraceOk(y.st)
    ensures Moves(y.st, Step(y, op).value.st)
  {
    hide LifeOk;
    hide Moves;
    match op
    case Connect => ConnectMoves(y);
    case Create(open) => CreateMoves(y, open);
    case PollOpen(h) => PollsMove(y, h);
    case Close(h) => CloseMoves(y, h);
    case PollClose(h) => PollsMove(y, h);
    case Send(h, data) => SendMoves(y, h, data);
    case Receive(m) => ReceiveMoves(y, m);
  }

  /** What the sender's own port looks like after its message, and that no other port notices. */
  lemma PortsAfter(a: State, b: State, x: Sent, p: nat)
    requires TraceOk(a) && InTurn(a, b, x)
    ensures var ts := PortTypes(a.sent + [x], p);
            && Conforms(ts)
            && (p != SrcPort(x.m.id) || MsgType(x.m.id) == Some(CONNECT) ==> ts == PortTypes(a.sent, p))
            && (p == SrcPort(x.m.id) && MsgType(x.m.id) in {Some(MessageType.OPEN), Some(DATA)} ==> Unclosed(ts))
  {
    hide MsgType;
    hide SrcPort;
    PortTypesOneMore(a.sent, x, p);
    var before := PortTypes(a.sent, p);
    assert before + [] == before;
    if p < a.unused {
      assert Conforms(before);
    } else {
      assert before == [];
    }
  }

  lemma MovesKeepTrace(a: State, b: State)
    requires TraceOk(a) && Moves(a, b) && Later(a, b)
    requires forall i | 0 <= i < b.unused :: b.services[i].Some?
    ensures TraceOk(b)
  {
    hide Extends;
    hide PortTypes;
    hide Conforms;
    hide MsgType;
    hide SrcPort;
    if b.sent != a.sent {
      var x := b.sent[|a.sent|];
      forall p: nat
        ensures var ts := PortTypes(b.sent, p);
                && Conforms(ts)
                && (p != SrcPort(x.m.id) || MsgType(x.m.id) == Some(CONNECT) ==> ts == PortTypes(a.sent, p))
                && (p == SrcPort(x.m.id) && MsgType(x.m.id) in {Some(MessageType.OPEN), Some(DATA)} ==> Unclosed(ts))
      {
        PortsAfter(a, b, x, p);
      }
    }
  }

  lemma {:induction false} RunKeepsTrace(y: System, ops: seq<Op>)
    requires LifeOk(y) && TraceOk(y.st) && (forall op | op in ops :: Fits(op)) && Run(y, ops).Some?
    ensures TraceOk(Run(y, ops).value.st) && y.st.sent <= Run(y, ops).value.st.sent
    decreases |ops|
  {
    if ops != [] {
      hide Step;
      hide LifeOk;
      hide TraceOk;
      var y1 := Step(y, ops[0]).value;
      StepMoves(y, ops[0]);
      StepKeepsLife(y, ops[0]);
      TableIsFilled(y1);
      MovesKeepTrace(y.st, y1.st);
      RunKeepsTrace(y1, ops[1..]);
    }
  }

  lemma TableIsFilled(y: System)
    requires LifeOk(y)
    ensures forall i | 0 <= i < y.st.unused :: y.st.services[i].Some?
  {
  }

  lemma InitialTrace(y: System)
    requires Initial(y)
    ensures TraceOk(y.st) && LifeOk(y)
  {
  }

  /**
   * Everything ever queued, in every run: nothing, or one CONNECT followed by an interleaving in which the messages
   * of each local port are a prefix of OPEN DATA* CLOSE.
   */
  lemma TraceConforms(y: System, ops: seq<Op>)
    requires Initial(y) && (forall op | op in ops :: Fits(op))
    requires LifeOk(y) && Run(y, ops).Some?
    ensures Grammar(Run(y, ops).value.st.sent)
  {
    InitialTrace(y);
    RunKeepsTrace(y, ops);
    var st := Run(y, ops).value.st;
    forall p: nat ensures Conforms(PortTypes(st.sent, p)) {
      if p < st.unused {
      } else {
        assert PortTypes(st.sent, p) == [];
      }
    }
  }

  /** Once a service is closing, from either side, no data leaves its port again. */
  lemma {:induction false} NoDataOnceClosing(y: System, ops: seq<Op>, i: nat, k: nat)
    requires LifeOk(y) && TraceOk(y.st) && (forall op | op in ops :: Fits(op)) && Run(y, ops).Some?
    requires i < y.st.unused && TheService(y, i).closing
    requires |y.st.sent| <= k < |Run(y, ops).value.st.sent|
    ensures var m := Run(y, ops).value.st.sent[k].m; !(MsgType(m.id) == Some(DATA) && SrcPort(m.id) == i)
    decreases |ops|
  {
    hide LifeOk;
    hide TraceOk;
    if ops != [] {
      hide Step;
      var y1 := Step(y, ops[0]).value;
      StepMoves(y, ops[0]);
      StepKeepsLife(y, ops[0]);
      TableIsFilled(y);
      TableIsFilled(y1);
      MovesKeepTrace(y.st, y1.st);
      assert y.st.services[i].Some?;
      if k < |y1.st.sent| {
        RunKeepsTrace(y1, ops[1..]);
        assert Run(y, ops).value.st.sent[k] == y1.st.sent[k];
      } else {
        NoDataOnceClosing(y1, ops[1..], i, k);
      }
    }
  }
}
