/** What the other side's answers make of a service: told from the messages dispatched for its port. */
module Answers {
  import opened Config
  import opened SlotMessage
  import opened Transport
  import RT = RoundTrip
  import opened Service
  import opened State
  import opened System
  import opened Lifecycle
  import opened Waits

  // ----- what the operations say -----

  /** The first OPENACK or CLOSE dispatched for the port. */
  function FirstAnswer(ops: seq<Op>, i: nat): (m: Option<Msg>)
    ensures m.Some? ==> MsgType(m.value.id) in {Some(OPENACK), Some(CLOSE)} && DstPort(m.value.id) == i
  {
    if ops == [] then None
    else if Hears(ops[0], i, ANSWERS) then Some(ops[0].m)
    else FirstAnswer(ops[1..], i)
  }

  /** A protocol version is given, in the first two bytes, least significant first. */
  predicate GivesVersion(op: Op, i: nat) {
    Hears(op, i, {OPENACK}) && |op.m.data| >= 2
  }

  /** The last version given by an OPENACK for the port, or else `before`. */
  function LastVersion(ops: seq<Op>, i: nat, before: nat): nat {
    if ops == [] then before
    else LastVersion(ops[1..], i, if GivesVersion(ops[0], i) then FromLE(ops[0].m.data[..2]) else before)
  }

  /** A service as it is created. */
  predicate IsNew(s: Service) {
    s.state == OPENING && s.remoteport == PORT_FREE && !s.closing && s.peerVersion == 0
  }

  /** The answers have made `t` of the service `s`. */
  predicate AsAnswered(s: Service, t: Service, first: Option<Msg>, closed: bool) {
    var acked := s.state == OPENING && first.Some? && MsgType(first.value.id) == Some(OPENACK);
    && t.remoteport == (if acked then SrcPort(first.value.id) else s.remoteport)
    && t.closing == (s.closing || closed)
    && t.state == (if acked then ServiceState.OPEN
                   else if s.state == OPENING && first.Some? then CLOSEWAIT
                   else s.state)
  }

  // ----- one step -----

  /** Nothing that the answers are about has changed. */
  predicate SameService(s: Service, t: Service) {
    t.state == s.state && t.remoteport == s.remoteport && t.closing == s.closing && t.peerVersion == s.peerVersion
  }

  lemma PollKeepsService(y: System, h: nat, i: nat)
    requires LifeOk(y) && i < y.st.unused
    ensures PollOpenStep(y, h).Some? ==> SameService(TheService(y, i), TheService(PollOpenStep(y, h).value, i))
    ensures PollCloseStep(y, h).Some? ==> SameService(TheService(y, i), TheService(PollCloseStep(y, h).value, i))
  {
    var found := ServiceFromHandle(y.st, h);
    if found.Some? {
      FoundIsBelow(y.st, h, found.value);
    }
    hide Settled;
  }

  lemma BeginCloseKeepsVersion(y: System, i: nat)
    requires LifeOk(y) && i < y.st.unused && BeginClose(y, i).Some?
    ensures BeginClose(y, i).value.st.services[i].Some?
    ensures TheService(BeginClose(y, i).value, i).peerVersion == TheService(y, i).peerVersion
  {
    hide QueueMessage;
    hide CloseMessage;
    hide WriterOk;
    assert Settled(TheService(y, i), y.clients[i]);
    if TheService(y, i).state in {OPENING, ServiceState.OPEN} {
      CloseSends(y, i);
    }
  }

  /** A close that does anything takes its client out of the phases before it. */
  lemma CloseKeepsService(y: System, h: nat, i: nat)
    requires LifeOk(y) && i < y.st.unused && CloseStep(y, h).Some?
    ensures i < |CloseStep(y, h).value.clients| && CloseStep(y, h).value.st.services[i].Some?
    ensures TheService(CloseStep(y, h).value, i).peerVersion == TheService(y, i).peerVersion
    ensures CloseStep(y, h).value.clients[i] in {WaitOpen, Opened} ==>
              SameService(TheService(y, i), TheService(CloseStep(y, h).value, i))
  {
    hide PollCloseStep;
    hide BeginClose;
    CloseKeepsLife(y, h);
    var found := ServiceFromHandle(y.st, h);
    if found.Some? {
      var j := found.value;
      FoundIsBelow(y.st, h, j);
      if TheService(y, j).state !in {FREE, LISTENING, HIDDEN} {
        var y1 := BeginClose(y, j).value;
        BeginCloseKeepsLife(y, j);
        BeginCloseAddsNone(y, j);
        PollKeepsService(y1, h, i);
        if j == i {
          BeginCloseKeepsVersion(y, i);
          BeginCloseClients(y, i);
        } else {
          BeginCloseOnly(y, j, i);
        }
        PollCloseClients(y1, h, i);
      }
    }
    hide LifeOk;
  }

  lemma StaysSame(y: System, y1: System, i: nat)
    requires SystemOk(y) && SystemOk(y1) && Stays(y, y1, i) && y.st.services[i].Some?
    ensures y1.st.services[i].Some? && SameService(TheService(y, i), TheService(y1, i))
  {
  }

  lemma CallKeepsService(y: System, op: Op, i: nat)
    requires LifeOk(y) && i < y.st.unused && Fits(op) && !op.Receive? && Step(y, op).Some?
    requires LifeOk(Step(y, op).value)
    ensures var y1 := Step(y, op).value;
            && i < |y1.clients| && y.st.services[i].Some? && y1.st.services[i].Some?
            && TheService(y1, i).peerVersion == TheService(y, i).peerVersion
            && (y1.clients[i] in {WaitOpen, Opened} ==> SameService(TheService(y, i), TheService(y1, i)))
  {
    StepKeepsLife(y, op);
    hide LifeOk;
    hide SameService;
    assert y.st.services[i].Some?;
    match op {
      case Connect => ConnectStays(y, i); StaysSame(y, Step(y, op).value, i);
      case Create(open) => CreateStays(y, open, i); StaysSame(y, Step(y, op).value, i);
      case PollOpen(h) => PollKeepsService(y, h, i);
      case Close(h) => CloseKeepsService(y, h, i);
      case PollClose(h) => PollKeepsService(y, h, i);
      case Send(h, data) => SendStays(y, h, data, i); StaysSame(y, Step(y, op).value, i);
    }
  }

  lemma ReceiveAnswers(y: System, m: Msg, i: nat)
    requires LifeOk(y) && i < y.st.unused && ReceiveStep(y, m).Some?
    ensures var y1, op := ReceiveStep(y, m).value, Receive(m);
            && y1.clients == y.clients && y1.st.unused == y.st.unused && y1.st.services[i].Some?
            && TheService(y1, i).peerVersion
               == (if GivesVersion(op, i) then FromLE(m.data[..2]) else TheService(y, i).peerVersion)
            && (y.clients[i] in {WaitOpen, Opened} ==>
                  AsAnswered(TheService(y, i), TheService(y1, i), if Hears(op, i, ANSWERS) then Some(m) else None,
                             Hears(op, i, {CLOSE})))
  {
    hide MsgType;
    hide SrcPort;
    hide WriterOk;
    assert Settled(TheService(y, i), y.clients[i]);
    if |m.data| >= 2 {
      TwoBytes(m.data);
    }
  }

  lemma TwoBytes(data: seq<byte>)
    requires |data| >= 2
    ensures FromLE(data[..2]) == data[0] as nat + 0x100 * data[1] as nat
  {
    assert data[..2][1..] == [data[1]] && [data[1]][1..] == [];
    assert FromLE([data[1]]) == data[1] as nat;
  }

  // ----- runs -----

  lemma CreatedIsNew(y: System, open: seq<byte>)
    requires LifeOk(y) && |open| == OPEN_PAYLOAD_SIZE && CreateStep(y, open).Some?
    requires y.st.unused < CreateStep(y, open).value.st.unused
    ensures var y1 := CreateStep(y, open).value;
            && y1.st.unused == y.st.unused + 1 <= MAX_SERVICES && |y1.st.services| == MAX_SERVICES
            && y1.st.services[y.st.unused].Some? && IsNew(y1.st.services[y.st.unused].value)
  {
    hide QueueMessage;
    hide MakeMsgId;
    AddUsesNext(y.st);
    var (st, index) := AddService(y.st);
    if index.Some? {
      hide AddService;
      var m := Msg(MakeMsgId(MessageType.OPEN, st.services[index.value].value.localport, 0), open);
      QueuedChanges(st, None, m);
      RecordChanges(st, None, m, QueueMessage(st, None, m).st.out);
    }
  }

  lemma NothingAnswers(op: Op, i: nat, s: Service)
    requires !op.Receive?
    ensures FirstAnswer([op], i) == None && LastVersion([op], i, s.peerVersion) == s.peerVersion
    ensures !Hears(op, i, {CLOSE})
    ensures forall t :: (SameService(s, t) ==> AsAnswered(s, t, None, false))
  {
    assert [op][1..] == [];
  }

  lemma OneStepAnswers(y: System, op: Op, i: nat, s: Service)
    requires LifeOk(y) && Fits(op) && Step(y, op).Some? && LifeOk(Step(y, op).value) && i < MAX_SERVICES
    requires if i < y.st.unused then s == y.st.services[i].value else IsNew(s)
    ensures var y1 := Step(y, op).value;
            if i < y1.st.unused then
              var t := TheService(y1, i);
              && t.peerVersion == LastVersion([op], i, s.peerVersion)
              && (y1.clients[i] in {WaitOpen, Opened} ==>
                    AsAnswered(s, t, FirstAnswer([op], i), Hears(op, i, {CLOSE})))
            else i >= y.st.unused && !Hears(op, i, ANSWERS)
  {
    hide Settled;
    hide WriterOk;
    hide MsgType;
    hide SrcPort;
    hide DstPort;
    hide AsAnswered;
    var y1 := Step(y, op).value;
    StepKeepsLife(y, op);
    assert [op][1..] == [];
    if !op.Receive? {
      NothingAnswers(op, i, s);
    }
    if i >= y.st.unused {
      NoPortNoAnswer(y, op, i);
      if i < y1.st.unused {
        OnlyCreateAdds(y, op);
        CreatedIsNew(y, op.open);
      }
    } else if op.Receive? {
      ReceiveAnswers(y, op.m, i);
    } else {
      CallKeepsService(y, op, i);
    }
    hide LifeOk;
    hide Step;
    hide GivesVersion;
  }

  lemma AnswersFirstOrLater(ops: seq<Op>, i: nat, before: nat)
    requires ops != []
    ensures FirstAnswer(ops, i)
         == (if FirstAnswer([ops[0]], i).Some? then FirstAnswer([ops[0]], i) else FirstAnswer(ops[1..], i))
    ensures LastVersion(ops, i, before) == LastVersion(ops[1..], i, LastVersion([ops[0]], i, before))
    ensures HasHeard(ops, i, {CLOSE}) <==> Hears(ops[0], i, {CLOSE}) || HasHeard(ops[1..], i, {CLOSE})
  {
    hide Hears;
    assert [ops[0]][1..] == [];
    HeardFirstOrLater(ops, i, {CLOSE});
  }

  /** What the answers of a run have made of a service, by the time its client's open has returned or before. */
  lemma {:induction false} RunAnswers(y: System, ops: seq<Op>, i: nat, s: Service)
    requires LifeOk(y) && (forall op | op in ops :: Fits(op)) && Run(y, ops).Some? && i < Run(y, ops).value.st.unused
    requires if i < y.st.unused then s == y.st.services[i].value else IsNew(s)
    ensures var r := Run(y, ops).value;
            var t := TheService(r, i);
            && t.peerVersion == LastVersion(ops, i, s.peerVersion)
            && (r.clients[i] in {WaitOpen, Opened} ==>
                  AsAnswered(s, t, FirstAnswer(ops, i), HasHeard(ops, i, {CLOSE})))
    decreases |ops|
  {
    if ops != [] {
      hide Step;
      var y1 := Step(y, ops[0]).value;
      StepKeepsLife(y, ops[0]);
      RunIsLater(y1, ops[1..]);
      OneStepAnswers(y, ops[0], i, s);
      AnswersFirstOrLater(ops, i, s.peerVersion);
      if i < y1.st.unused {
        ClientsStayOn(y1, ops[1..], i);
        var s1 := TheService(y1, i);
        RunAnswers(y1, ops[1..], i, s1);
      } else {
        RunAnswers(y1, ops[1..], i, s);
      }
      hide FirstAnswer;
      hide HasHeard;
      hide Hears;
    }
  }

  /**
   * The first answer decides. In every run, until its client closes it: a service is open, connected to the port that
   * answered, if the first answer was an OPENACK, waits to be closed if it was a CLOSE, and is opening before there is
   * one. It is closing exactly when any CLOSE has come for it, first or later; its peer's version is the last given.
   */
  lemma FirstAnswerDecides(y: System, ops: seq<Op>, i: nat)
    requires Initial(y) && LifeOk(y) && (forall op | op in ops :: Fits(op)) && Run(y, ops).Some?
    requires i < Run(y, ops).value.st.unused
    ensures var r := Run(y, ops).value;
            var t, first := TheService(r, i), FirstAnswer(ops, i);
            && t.peerVersion == LastVersion(ops, i, 0)
            && (r.clients[i] in {WaitOpen, Opened} ==>
                  && (t.closing <==> HasHeard(ops, i, {CLOSE}))
                  && if first.None? then t.state == OPENING
                     else if MsgType(first.value.id) == Some(OPENACK)
                     then t.state == ServiceState.OPEN && t.remoteport == SrcPort(first.value.id)
                     else t.state == CLOSEWAIT)
  {
    RunAnswers(y, ops, i, NewService(0).(state := OPENING));
  }

  /** There is room for a message without data. */
  predicate HasRoom(out: Side) {
    StartPos(out.localTxPos, HEADER_SIZE) + HEADER_SIZE <= out.avail * SLOT_SIZE
  }

  /** One CLOSE more has been sent, from port `i` to port `remote`. */
  predicate OneCloseMore(before: seq<Sent>, after: seq<Sent>, i: nat, remote: nat) {
    && |after| == |before| + 1 && after[..|before|] == before
    && var m := after[|before|].m;
       MsgType(m.id) == Some(CLOSE) && SrcPort(m.id) == i && DstPort(m.id) == remote && m.data == []
  }

  /** The close of a service that is open and connected to port `remote`: it fails, or sends CLOSE and waits. */
  predicate ClosesOpen(y: System, c: Option<System>, i: nat, remote: nat)
    requires SystemOk(y) && i < |y.clients|
  {
    && (c.Some? <==> HasRoom(y.st.out))
    && (c.Some? ==>
          && SystemOk(c.value) && i < |c.value.clients| && c.value.st.services[i].Some? && !Raised(c.value, i)
          && c.value.clients == y.clients[i := WaitClose]
          && OneCloseMore(y.st.sent, c.value.st.sent, i, remote))
  }

  /** The close of a service that the other side has closed: it returns at once, and sends nothing. */
  predicate ClosesClosed(y: System, c: Option<System>, i: nat)
    requires SystemOk(y) && i < |y.clients|
  {
    c.Some? && c.value.clients == y.clients[i := Closed] && c.value.st.sent == y.st.sent
  }

  /** A close of an open service fails only when its CLOSE does not fit the slots. */
  lemma CloseFitsIff(y: System, i: nat)
    requires LifeOk(y) && i < y.st.unused && y.clients[i] == Opened
    ensures BeginClose(y, i).Some? <==> TheService(y, i).state == CLOSEWAIT || HasRoom(y.st.out)
  {
    var s := TheService(y, i).(closing := true);
    assert Settled(TheService(y, i), y.clients[i]);
    CloseMessageIsClose(s);
    assert Stride(CloseMessage(s)) == HEADER_SIZE by { hide MakeMsgId; }
    hide CloseMessage;
    hide MsgType;
    hide SrcPort;
    hide DstPort;
    RT.QueueEnds(y.st.writer, y.st.out, CloseMessage(s));
    hide Queue;
    hide WriterOk;
    hide Record;
  }

  /** What the close of an open service sends. */
  lemma CloseSendsClose(y: System, i: nat)
    requires LifeOk(y) && i < y.st.unused && y.clients[i] == Opened && TheService(y, i).state != CLOSEWAIT
    requires BeginClose(y, i).Some?
    ensures OneCloseMore(y.st.sent, BeginClose(y, i).value.st.sent, i, TheService(y, i).remoteport)
  {
    hide OneCloseMore;
    hide BeginClose;
    hide CloseMessage;
    hide MsgType;
    hide SrcPort;
    hide DstPort;
    hide WriterOk;
    hide Settled;
    var s := TheService(y, i).(closing := true);
    OpenedIs(y, i);
    CloseMessageIsClose(s);
    var x := OpenCloseSent(y, i);
    OneCloseMoreIs(y.st.sent, x, i, s.remoteport);
  }

  lemma OpenCloseSent(y: System, i: nat) returns (x: Sent)
    requires SystemOk(y) && i < |y.clients| && y.st.services[i].Some?
    requires TheService(y, i).state == ServiceState.OPEN && BeginClose(y, i).Some?
    ensures x.m == CloseMessage(TheService(y, i).(closing := true)) && x.m.data == []
    ensures BeginClose(y, i).value.st.sent == y.st.sent + [x]
  {
    hide MakeMsgId;
    assert CloseMessage(TheService(y, i).(closing := true)).data == [];
    OpenCloseQueues(y, i);
    hide BeginClose;
    hide CloseMessage;
    hide QueueMessage;
    hide WriterOk;
    CloseSends(y, i);
    var slot := SlotIndex(BeginClose(y, i).value.st.out.localTxPos - 1);
    x := Sent(CloseMessage(TheService(y, i).(closing := true)), slot);
  }

  lemma OpenedIs(y: System, i: nat)
    requires LifeOk(y) && i < y.st.unused && y.clients[i] == Opened && TheService(y, i).state != CLOSEWAIT
    ensures var s := TheService(y, i); s.state == ServiceState.OPEN && s.localport == i && s.remoteport < PORT_FREE
  {
    assert Settled(TheService(y, i), y.clients[i]);
  }

  lemma OneCloseMoreIs(before: seq<Sent>, x: Sent, i: nat, remote: nat)
    requires MsgType(x.m.id) == Some(CLOSE) && SrcPort(x.m.id) == i && DstPort(x.m.id) == remote && x.m.data == []
    ensures OneCloseMore(before, before + [x], i, remote)
  {
  }

  lemma OpenCloseQueues(y: System, i: nat)
    requires SystemOk(y) && i < |y.clients| && y.st.services[i].Some?
    requires TheService(y, i).state == ServiceState.OPEN && BeginClose(y, i).Some?
    ensures var s := TheService(y, i).(closing := true);
            && Stride(CloseMessage(s)) <= SLOT_SIZE
            && var q := QueueMessage(SetService(y.st, i, s), Some(i), CloseMessage(s));
               q.Queued? && BeginClose(y, i).value.st == q.st
  {
    CloseMessageIsClose(TheService(y, i).(closing := true));
    hide QueueMessage;
    hide CloseMessage;
    hide MsgType;
    hide SrcPort;
    hide DstPort;
  }

  lemma PollSendsNothing(y: System, h: nat)
    requires SystemOk(y) && PollCloseStep(y, h).Some?
    ensures PollCloseStep(y, h).value.st.sent == y.st.sent
  {
  }

  lemma CloseOfClosed(y: System, i: nat)
    requires LifeOk(y) && i < y.st.unused && y.clients[i] == Opened && TheService(y, i).state == CLOSEWAIT
    ensures ClosesClosed(y, CloseStep(y, TheService(y, i).handle), i)
  {
    HandleFinds(y.st, i);
    CloseOfClosedFrees(y, i);
    BeginCloseKeepsLife(y, i);
    HandleFinds(BeginClose(y, i).value.st, i);
    hide BeginClose;
    hide LifeOk;
    hide TableOk;
  }

  lemma CloseOfOpen(y: System, i: nat)
    requires LifeOk(y) && i < y.st.unused && y.clients[i] == Opened && TheService(y, i).state != CLOSEWAIT
    ensures ClosesOpen(y, CloseStep(y, TheService(y, i).handle), i, TheService(y, i).remoteport)
  {
    hide OneCloseMore;
    hide HasRoom;
    hide WriterOk;
    hide Settled;
    HandleFinds(y.st, i);
    OpenedIs(y, i);
    CloseFitsIff(y, i);
    if BeginClose(y, i).Some? {
      var y1 := BeginClose(y, i).value;
      BeginCloseKeepsLife(y, i);
      CloseSendsClose(y, i);
      CloseOfOpenWaits(y, i);
      HandleFinds(y1.st, i);
    }
    hide BeginClose;
    hide LifeOk;
    hide TableOk;
    hide OneCloseMore;
    hide HasRoom;
  }

  /** Once a close has returned, another one is refused. */
  lemma CloseIsRefused(y: System, i: nat)
    requires LifeOk(y) && i < y.st.unused && y.clients[i] == Closed
    ensures CloseStep(y, TheService(y, i).handle) == Some(y)
  {
    HandleFinds(y.st, i);
    assert Settled(TheService(y, i), y.clients[i]);
  }

  /**
   * What a close does, told from the history alone. In every run, once the open has returned: if the first answer was
   * a CLOSE, the close returns at once and sends nothing; if it was an OPENACK, a CLOSE to the port that answered is
   * the last message sent, and the close waits, whether or not a CLOSE has come since. It fails only where that CLOSE
   * does not fit the slots.
   */
  lemma CloseReturnsAtOnceIff(y: System, ops: seq<Op>, i: nat)
    requires Initial(y) && LifeOk(y) && (forall op | op in ops :: Fits(op)) && Run(y, ops).Some?
    requires i < Run(y, ops).value.st.unused && Run(y, ops).value.clients[i] == Opened
    ensures var r, first := Run(y, ops).value, FirstAnswer(ops, i);
            var c := CloseStep(r, TheService(r, i).handle);
            && first.Some?
            && if MsgType(first.value.id) == Some(CLOSE) then ClosesClosed(r, c, i)
               else ClosesOpen(r, c, i, SrcPort(first.value.id))
  {
    FirstAnswerDecides(y, ops, i);
    var r := Run(y, ops).value;
    hide Run;
    hide Initial;
    assert TheService(r, i).state in {ServiceState.OPEN, CLOSEWAIT} by {
      assert Settled(TheService(r, i), r.clients[i]);
    }
    if TheService(r, i).state == CLOSEWAIT { CloseOfClosed(r, i); } else { CloseOfOpen(r, i); }
    hide CloseStep;
    hide LifeOk;
    hide ClosesOpen;
    hide ClosesClosed;
  }
}
