/** The quota loops of queue_message with their semaphores: a message that has to wait never gets through. */
module QuotaWaits {
  import opened Config
  import opened SlotMessage
  import opened Transport
  import opened Service
  import opened State
  import opened System
  import opened Lifecycle
  import Quota

  // ----- the loops -----

  datatype Wait = Over | Never | Fails(error: Error)

  /**
   * The loop on the quota of all data messages: every turn takes a count of the semaphore, or waits for one. The
   * loop is left only once its condition is false.
   */
  function DataLoop(st: State, txEnd: int, event: nat): Wait
    decreases event
  {
    if !DataQuotaWaits(st, txEnd) then Over
    else if event == 0 then Never
    else DataLoop(st, txEnd, event - 1)
  }

  /** The loop on the quota of one service: after each wait it also looks at the service again. */
  function ServiceLoop(q: ServiceQuota, s: Service, txEnd: int): Wait
    decreases q.quotaEvent
  {
    if !ServiceQuotaWaits(q, txEnd) then Over
    else if q.quotaEvent == 0 then Never
    else if s.closing then Fails(ServiceClosing)
    else if s.state != ServiceState.OPEN then Fails(ServiceAlreadyClosed)
    else ServiceLoop(q.(quotaEvent := q.quotaEvent - 1), s, txEnd)
  }

  /** The check and both loops, with `dataEvent` counts on the semaphore of the first. */
  function AdmitByLoops(st: State, s: Service, stride: nat, dataEvent: nat): QueueResult
    requires Sized(st) && s.localport < MAX_SERVICES
  {
    var txEnd := SlotIndex(st.out.localTxPos + stride - 1);
    if s.closing then Refused(ServiceAlreadyClosed)
    else
      match DataLoop(st, txEnd, dataEvent)
      case Never => Blocked
      case Fails(e) => Refused(e)
      case Over =>
        match ServiceLoop(st.quotas[s.localport], s, txEnd)
        case Never => Blocked
        case Fails(e) => Refused(e)
        case Over => Queued(st)
  }

  /** No count of its semaphore lets the first loop end. */
  lemma {:induction false} DataLoopIs(st: State, txEnd: int, event: nat)
    ensures DataLoop(st, txEnd, event) == (if DataQuotaWaits(st, txEnd) then Never else Over)
    decreases event
  {
    if DataQuotaWaits(st, txEnd) && event > 0 {
      DataLoopIs(st, txEnd, event - 1);
    }
  }

  /**
   * What the loops decide, and when that is what admission says: always, except for a service in another state than
   * OPEN, but not closing, whose semaphore is raised.
   */
  lemma AdmitIsTheLoopsIff(st: State, s: Service, stride: nat, dataEvent: nat)
    requires Sized(st) && s.localport < MAX_SERVICES
    ensures var txEnd := SlotIndex(st.out.localTxPos + stride - 1);
            AdmitByLoops(st, s, stride, dataEvent) == Admit(st, s, stride) <==>
              || s.closing || s.state == ServiceState.OPEN || st.quotas[s.localport].quotaEvent == 0
              || DataQuotaWaits(st, txEnd) || !ServiceQuotaWaits(st.quotas[s.localport], txEnd)
  {
    hide WriterOk;
    var txEnd := SlotIndex(st.out.localTxPos + stride - 1);
    DataLoopIs(st, txEnd, dataEvent);
    if s.state == ServiceState.OPEN && !s.closing {
      ServiceLoopIs(st.quotas[s.localport], s, txEnd);
    }
  }

  lemma {:induction false} ServiceLoopIs(q: ServiceQuota, s: Service, txEnd: int)
    requires !s.closing && s.state == ServiceState.OPEN
    ensures ServiceLoop(q, s, txEnd) == (if ServiceQuotaWaits(q, txEnd) then Never else Over)
    decreases q.quotaEvent
  {
    if ServiceQuotaWaits(q, txEnd) && q.quotaEvent > 0 {
      ServiceLoopIs(q.(quotaEvent := q.quotaEvent - 1), s, txEnd);
    }
  }

  // ----- who raises the semaphores -----

  /** Only a closing service has the semaphore of its quota raised. */
  predicate EventsOk(st: State) {
    && |st.quotas| == MAX_SERVICES == |st.services| && st.unused <= MAX_SERVICES
    && forall p | 0 <= p < MAX_SERVICES && st.quotas[p].quotaEvent > 0 ::
         p < st.unused && st.services[p].Some? && st.services[p].value.closing
  }

  /** The quotas are those the number of slots gives, the same for every service, and no message is ever counted. */
  predicate LimitsOk(st: State) {
    && |st.quotas| == MAX_SERVICES
    && st.dataQuota == st.out.avail - 1
    && st.slotQuota == st.out.avail / 2 && st.messageQuota == st.slotQuota * 256
    && forall p | 0 <= p < MAX_SERVICES ::
         && st.quotas[p].messageUse == 0
         && (p < st.unused ==>
               st.quotas[p].slotQuota == st.slotQuota && st.quotas[p].messageQuota == st.messageQuota)
  }

  predicate SameLimits(a: State, b: State) {
    && |a.quotas| == MAX_SERVICES == |b.quotas| && a.unused <= b.unused
    && b.out.avail == a.out.avail && b.dataQuota == a.dataQuota
    && b.slotQuota == a.slotQuota && b.messageQuota == a.messageQuota
    && forall p | 0 <= p < MAX_SERVICES ::
         var q, r := a.quotas[p], b.quotas[p];
         && r.messageUse == q.messageUse
         && (p < a.unused ==> r.slotQuota == q.slotQuota && r.messageQuota == q.messageQuota)
         && (a.unused <= p < b.unused ==> r.slotQuota == a.slotQuota && r.messageQuota == a.messageQuota)
  }

  predicate SameEvents(a: State, b: State) {
    && |a.quotas| == MAX_SERVICES == |b.quotas|
    && forall p | 0 <= p < MAX_SERVICES :: b.quotas[p].quotaEvent == a.quotas[p].quotaEvent
  }

  predicate SameQuotas(a: State, b: State) {
    SameEvents(a, b) && SameLimits(a, b)
  }

  lemma LaterKeepsEvents(a: State, b: State)
    requires EventsOk(a) && SameEvents(a, b) && Later(a, b)
    ensures EventsOk(b)
  {
  }

  lemma SameKeepsLimits(a: State, b: State)
    requires LimitsOk(a) && SameLimits(a, b)
    ensures LimitsOk(b)
  {
  }

  lemma QueuedKeepsQuotas(st: State, svc: Option<nat>, m: Msg)
    requires Sized(st) && Known(st, svc) && Stride(m) <= SLOT_SIZE && QueueMessage(st, svc, m).Queued?
    ensures SameQuotas(st, QueueMessage(st, svc, m).st)
  {
    hide QueueMessage;
    hide Record;
    hide WriterOk;
    hide MsgType;
    QueuedChanges(st, svc, m);
    QueueKeepsAvail(st.writer, st.out, m);
    LimitsAreKept(st, svc, m, QueueMessage(st, svc, m).st.out);
    Quota.RecordCounts(st, svc, m, QueueMessage(st, svc, m).st.out);
  }

  lemma QueueKeepsAvail(v: Variant, s: Side, m: Msg)
    requires WriterOk(s) && Stride(m) <= SLOT_SIZE && Queue(v, s, m).Some?
    ensures Queue(v, s, m).value.avail == s.avail
  {
    hide Queue;
    QueueEffect(v, s, m);
  }

  lemma LimitsAreKept(st: State, svc: Option<nat>, m: Msg, out: Side)
    requires Sized(st) && Known(st, svc) && WriterOk(out) && 0 < out.localTxPos
    requires MsgType(m.id) == Some(DATA) ==> svc.Some?
    ensures var r := Record(st, svc, m, out); r.slotQuota == st.slotQuota && r.messageQuota == st.messageQuota
  {
    hide WriterOk;
    hide MsgType;
  }

  lemma ConnectKeepsQuotas(y: System)
    requires SystemOk(y) && ConnectStep(y).Some?
    ensures SameQuotas(y.st, ConnectStep(y).value.st)
  {
    hide QueueMessage;
    hide WriterOk;
    if !y.st.connected && y.st.conn == DISCONNECTED {
      MsgIdRoundTrip(CONNECT, 0, 0);
      QueuedKeepsQuotas(y.st, None, Msg(MakeMsgId(CONNECT, 0, 0), []));
    }
  }

  lemma AddKeepsQuotas(st: State)
    requires TableOk(st)
    ensures SameQuotas(st, AddService(st).0)
  {
    AddUsesNext(st);
    hide WriterOk;
  }

  lemma CreateKeepsQuotas(y: System, open: seq<byte>)
    requires LifeOk(y) && |open| == OPEN_PAYLOAD_SIZE && CreateStep(y, open).Some?
    ensures SameQuotas(y.st, CreateStep(y, open).value.st)
  {
    if y.st.connected {
      hide QueueMessage;
      hide AddService;
      AddUsesNext(y.st);
      AddKeepsQuotas(y.st);
      var (st, index) := AddService(y.st);
      if index.Some? {
        var m := Msg(MakeMsgId(MessageType.OPEN, st.services[index.value].value.localport, 0), open);
        QueuedKeepsQuotas(st, None, m);
      }
    }
  }

  lemma PollsKeepQuotas(y: System, h: nat)
    requires SystemOk(y)
    ensures PollOpenStep(y, h).Some? ==> SameQuotas(y.st, PollOpenStep(y, h).value.st)
    ensures PollCloseStep(y, h).Some? ==> SameQuotas(y.st, PollCloseStep(y, h).value.st)
  {
    hide WriterOk;
  }

  lemma CloseKeepsQuotas(y: System, h: nat)
    requires LifeOk(y) && CloseStep(y, h).Some?
    ensures SameQuotas(y.st, CloseStep(y, h).value.st)
  {
    hide BeginClose;
    hide PollCloseStep;
    var found := ServiceFromHandle(y.st, h);
    if found.Some? {
      var i := found.value;
      FoundIsBelow(y.st, h, i);
      if TheService(y, i).state !in {FREE, LISTENING, HIDDEN} {
        BeginCloseKeepsQuotas(y, i);
        PollsKeepQuotas(BeginClose(y, i).value, h);
      }
    }
  }

  lemma BeginCloseKeepsQuotas(y: System, i: nat)
    requires LifeOk(y) && i < y.st.unused && BeginClose(y, i).Some?
    ensures SameQuotas(y.st, BeginClose(y, i).value.st)
  {
    hide QueueMessage;
    hide WriterOk;
    hide CloseMessage;
    var s := TheService(y, i).(closing := true);
    if s.state in {OPENING, ServiceState.OPEN, OPENSYNC} {
      CloseMessageIsClose(s);
      QueuedKeepsQuotas(SetService(y.st, i, s), Some(i), CloseMessage(s));
    }
  }

  lemma SendKeepsQuotas(y: System, h: nat, data: seq<byte>)
    requires LifeOk(y) && CalcMsgStride(|data|) <= SLOT_SIZE && SendStep(y, h, data).Some?
    ensures SameQuotas(y.st, SendStep(y, h, data).value.st)
  {
    hide QueueMessage;
    hide WriterOk;
    var found := ServiceFromHandle(y.st, h);
    if found.Some? {
      var i := found.value;
      FoundIsBelow(y.st, h, i);
      var s := TheService(y, i);
      var m := Msg(MakeMsgId(DATA, s.localport, s.remoteport), data);
      if QueueMessage(y.st, Some(i), m).Queued? {
        QueuedKeepsQuotas(y.st, Some(i), m);
      }
    }
  }

  /** A CLOSE raises the semaphore, and marks the service as closing. */
  lemma ReceiveKeepsEventsOk(y: System, m: Msg)
    requires LifeOk(y) && EventsOk(y.st) && ReceiveStep(y, m).Some?
    ensures EventsOk(ReceiveStep(y, m).value.st) && SameLimits(y.st, ReceiveStep(y, m).value.st)
  {
    hide WriterOk;
    hide MsgType;
    hide Settled;
    ReceiveKeepsLife(y, m);
    var st := ReceiveStep(y, m).value.st;
    if MsgType(m.id) == Some(CLOSE) {
      var i := DstPort(m.id);
      assert y.st.services[i].value.localport == i;
      CloseMarks(y.st.services[i].value.(closing := true));
    } else {
      LaterKeepsEvents(y.st, st);
    }
  }

  lemma CloseMarks(s: Service)
    ensures OnClose(s).closing == s.closing
  {
  }

  lemma StepKeepsEventsOk(y: System, op: Op)
    requires LifeOk(y) && EventsOk(y.st) && Fits(op) && Step(y, op).Some?
    ensures EventsOk(Step(y, op).value.st) && SameLimits(y.st, Step(y, op).value.st)
  {
    hide LifeOk;
    hide EventsOk;
    hide Later;
    hide SameEvents;
    hide SameLimits;
    StepKeepsLife(y, op);
    if op.Receive? {
      ReceiveKeepsEventsOk(y, op.m);
    } else {
      match op {
        case Connect => ConnectKeepsQuotas(y);
        case Create(open) => CreateKeepsQuotas(y, open);
        case PollOpen(h) => PollsKeepQuotas(y, h);
        case Close(h) => CloseKeepsQuotas(y, h);
        case PollClose(h) => PollsKeepQuotas(y, h);
        case Send(h, data) => SendKeepsQuotas(y, h, data);
      }
      LaterKeepsEvents(y.st, Step(y, op).value.st);
    }
  }

  lemma {:induction false} RunKeepsEventsOk(y: System, ops: seq<Op>)
    requires LifeOk(y) && EventsOk(y.st) && LimitsOk(y.st) && (forall op | op in ops :: Fits(op)) && Run(y, ops).Some?
    ensures EventsOk(Run(y, ops).value.st) && LimitsOk(Run(y, ops).value.st)
    decreases |ops|
  {
    if ops != [] {
      hide Step;
      hide LifeOk;
      hide EventsOk;
      hide LimitsOk;
      hide SameLimits;
      StepKeepsEventsOk(y, ops[0]);
      SameKeepsLimits(y.st, Step(y, ops[0]).value.st);
      StepKeepsLife(y, ops[0]);
      RunKeepsEventsOk(Step(y, ops[0]).value, ops[1..]);
    }
  }

  /**
   * In every run, whatever the semaphore of the first loop counts: the loops decide exactly as admission does. So a
   * data message that meets a used up quota waits for ever, and its waits never end in an error.
   */
  lemma WaitingIsForEver(y: System, ops: seq<Op>, i: nat, stride: nat, dataEvent: nat)
    requires Initial(y) && LifeOk(y) && (forall op | op in ops :: Fits(op)) && Run(y, ops).Some?
    requires i < Run(y, ops).value.st.unused
    ensures var r := Run(y, ops).value;
            var s := TheService(r, i);
            && s.localport == i && (r.st.quotas[i].quotaEvent > 0 ==> s.closing)
            && AdmitByLoops(r.st, s, stride, dataEvent) == Admit(r.st, s, stride)
  {
    assert EventsOk(y.st) && LimitsOk(y.st);
    RunKeepsEventsOk(y, ops);
    var r := Run(y, ops).value;
    assert r.st.services[i].Some?;
    AdmitIsTheLoopsIff(r.st, TheService(r, i), stride, dataEvent);
  }
}
