/** The quota counters count distinct slots, and never pass their quotas. */
module Quota {
  import opened Config
  import opened SlotMessage
  import opened Slots
  import opened Transport
  import opened Service
  import opened State
  import opened System
  import opened Lifecycle

  predicate IsData(x: Sent) {
    MsgType(x.m.id) == Some(DATA)
  }

  /** The slots holding a data message. */
  function DataSlots(sent: seq<Sent>): set<nat> {
    set x | x in sent && IsData(x) :: x.slot
  }

  /** The slots holding a data message of the service with local port `p`. */
  function PortSlots(sent: seq<Sent>, p: nat): set<nat> {
    set x | x in sent && IsData(x) && SrcPort(x.m.id) == p :: x.slot
  }

  /** One counter: it counts `slots`, and `prev` is the last of them, or lies below whatever comes next. */
  predicate Counts(slots: set<nat>, use: nat, prev: int, pos: nat) {
    && use == |slots|
    && (forall s | s in slots :: s <= prev)
    && (if slots == {} then (prev + 1) * SLOT_SIZE <= pos else prev >= 0 && prev in slots)
  }

  predicate DataCountOk(st: State) {
    Counts(DataSlots(st.sent), st.dataUse, st.previousData, st.out.localTxPos) && st.dataUse <= st.dataQuota
  }

  predicate PortCountOk(st: State, i: nat)
    requires i < |st.quotas|
  {
    var q := st.quotas[i];
    if i < st.unused
    then Counts(PortSlots(st.sent, i), q.slotUse, q.previousTx, st.out.localTxPos) && q.slotUse <= q.slotQuota
    else q.slotUse == 0 && PortSlots(st.sent, i) == {}
  }

  predicate SlotsBelow(st: State) {
    forall x | x in st.sent :: x.slot * SLOT_SIZE < st.out.localTxPos
  }

  predicate QuotaOk(st: State)
    ensures QuotaOk(st) ==> Sized(st) && st.unused <= MAX_SERVICES
  {
    && Sized(st) && st.unused <= MAX_SERVICES
    && SlotsBelow(st) && DataCountOk(st)
    && forall i | 0 <= i < MAX_SERVICES :: PortCountOk(st, i)
  }

  // ----- positions -----

  /** The slot predicted before the reservation is the slot the message ends in, with or without padding. */
  lemma PredictedSlotIsActual(pos: nat, stride: nat)
    requires pos % 8 == 0 && HEADER_SIZE <= stride <= SLOT_SIZE
    ensures SlotIndex(pos + stride - 1) == SlotIndex(StartPos(pos, stride) + stride - 1)
  {
    var q, r := pos / SLOT_SIZE, pos % SLOT_SIZE;
    if stride > SLOT_SIZE - r {
      DivMod(q + 1, r + stride - 1 - SLOT_SIZE, pos + stride - 1);
      DivMod(q + 1, stride - 1, StartPos(pos, stride) + stride - 1);
    }
  }

  /** Slots only grow: the slot of a new message is not below any used before, and not below the current one. */
  lemma SlotsGrow(pos: nat, newPos: nat, slot: nat)
    requires pos < newPos && slot * SLOT_SIZE < newPos
    ensures slot <= SlotIndex(newPos - 1) && SlotIndex(newPos - 1) * SLOT_SIZE < newPos
    ensures pos <= SlotIndex(newPos - 1) * SLOT_SIZE + SLOT_SIZE
  {
  }

  // ----- one counter -----

  /** Counting the slot `a` of a new message, given that slots only grow. */
  lemma CountOne(slots: set<nat>, use: nat, prev: int, pos: nat, a: nat, newPos: nat)
    requires Counts(slots, use, prev, pos) && pos < newPos && a == SlotIndex(newPos - 1)
    requires forall s | s in slots :: s * SLOT_SIZE < pos
    ensures Counts(slots + {a}, if a != prev then use + 1 else use, a, newPos)
  {
    forall s | s in slots ensures s <= a {
      SlotsGrow(pos, newPos, s);
    }
    if a == prev {
      SlotsGrow(pos, newPos, 0);
      assert slots != {};
      assert slots + {a} == slots;
    } else {
      assert a !in slots;
    }
  }

  lemma CountsLater(slots: set<nat>, use: nat, prev: int, pos: nat, newPos: nat)
    requires Counts(slots, use, prev, pos) && pos <= newPos
    ensures Counts(slots, use, prev, newPos)
  {
  }

  lemma SlotsOneMore(sent: seq<Sent>, x: Sent, p: nat)
    ensures DataSlots(sent + [x]) == DataSlots(sent) + (if IsData(x) then {x.slot} else {})
    ensures PortSlots(sent + [x], p)
         == PortSlots(sent, p) + (if IsData(x) && SrcPort(x.m.id) == p then {x.slot} else {})
  {
    hide IsData;
    hide SrcPort;
    assert forall y :: y in sent + [x] <==> y in sent || y == x;
  }

  // ----- every step -----

  /** The message recorded is a data message of the service `svc`, and neither quota makes it wait. */
  predicate Admitted(st: State, svc: Option<nat>, m: Msg)
    ensures Admitted(st, svc, m) ==> svc.Some?
  {
    && Sized(st) && svc.Some? && svc.value < st.unused <= MAX_SERVICES && st.services[svc.value].Some?
    && var p := st.services[svc.value].value.localport;
       var txEnd := SlotIndex(st.out.localTxPos + Stride(m) - 1);
       && p == svc.value && SrcPort(m.id) == p
       && !DataQuotaWaits(st, txEnd) && !ServiceQuotaWaits(st.quotas[p], txEnd)
  }

  /** Where a queued message ends. */
  lemma OutGrows(v: Variant, s: Side, m: Msg, out: Side)
    requires WriterOk(s) && Stride(m) <= SLOT_SIZE && Queue(v, s, m) == Some(out)
    ensures s.localTxPos < out.localTxPos
    ensures SlotIndex(s.localTxPos + Stride(m) - 1) == SlotIndex(out.localTxPos - 1)
    ensures SlotIndex(out.localTxPos - 1) >= 0 && SlotIndex(out.localTxPos - 1) * SLOT_SIZE < out.localTxPos
  {
    hide Queue;
    hide StoreMessage;
    QueueEffect(v, s, m);
    StartPosFits(s.localTxPos, Stride(m), s.avail);
    PredictedSlotIsActual(s.localTxPos, Stride(m));
    SlotsGrow(s.localTxPos, out.localTxPos, 0);
  }

  lemma DataSlotsBelow(st: State)
    requires SlotsBelow(st)
    ensures forall s | s in DataSlots(st.sent) :: s * SLOT_SIZE < st.out.localTxPos
  {
    hide IsData;
  }

  lemma AdmittedMeetsQuota(st: State, svc: Option<nat>, m: Msg)
    requires Admitted(st, svc, m)
    ensures !DataQuotaWaits(st, SlotIndex(st.out.localTxPos + Stride(m) - 1))
  {
    hide WriterOk;
    hide ServiceQuotaWaits;
  }

  lemma RecordKeepsData(st: State, svc: Option<nat>, m: Msg, out: Side)
    requires Sized(st) && Known(st, svc) && WriterOk(out) && st.out.localTxPos < out.localTxPos
    requires MsgType(m.id) == Some(DATA) ==>
               Admitted(st, svc, m) && SlotIndex(st.out.localTxPos + Stride(m) - 1) == SlotIndex(out.localTxPos - 1)
    requires SlotsBelow(st) && DataCountOk(st)
    ensures DataCountOk(Record(st, svc, m, out))
  {
    hide Record;
    hide Counts;
    hide WriterOk;
    hide MsgType;
    var a := SlotIndex(out.localTxPos - 1);
    DataSlotsBelow(st);
    hide DataSlots;
    hide PortSlots;
    hide SlotsBelow;
    RecordCounts(st, svc, m, out);
    SlotsOneMore(st.sent, Sent(m, a), 0);
    if MsgType(m.id) == Some(DATA) {
      AdmittedMeetsQuota(st, svc, m);
      hide Admitted;
      CountOne(DataSlots(st.sent), st.dataUse, st.previousData, st.out.localTxPos, a, out.localTxPos);
    } else {
      CountsLater(DataSlots(st.sent), st.dataUse, st.previousData, st.out.localTxPos, out.localTxPos);
      assert DataSlots(st.sent) + {} == DataSlots(st.sent);
    }
  }

  lemma RecordKeepsPort(st: State, svc: Option<nat>, m: Msg, out: Side, i: nat)
    requires Sized(st) && Known(st, svc) && WriterOk(out) && st.out.localTxPos < out.localTxPos
    requires MsgType(m.id) == Some(DATA) ==>
               Admitted(st, svc, m) && SlotIndex(st.out.localTxPos + Stride(m) - 1) == SlotIndex(out.localTxPos - 1)
    requires SlotsBelow(st) && i < MAX_SERVICES && PortCountOk(st, i)
    ensures PortCountOk(Record(st, svc, m, out), i)
  {
    hide WriterOk;
    hide MsgType;
    if i < st.unused && MsgType(m.id) == Some(DATA) && i == svc.value {
      RecordCountsPort(st, svc, m, out, i);
    } else {
      RecordSkipsPort(st, svc, m, out, i);
    }
  }

  lemma RecordCountsPort(st: State, svc: Option<nat>, m: Msg, out: Side, i: nat)
    requires Sized(st) && Known(st, svc) && WriterOk(out) && st.out.localTxPos < out.localTxPos
    requires MsgType(m.id) == Some(DATA) && Admitted(st, svc, m)
    requires SlotIndex(st.out.localTxPos + Stride(m) - 1) == SlotIndex(out.localTxPos - 1)
    requires SlotsBelow(st) && i < MAX_SERVICES && PortCountOk(st, i) && svc == Some(i) && i < st.unused
    ensures PortCountOk(Record(st, svc, m, out), i)
  {
    hide Record;
    hide Counts;
    hide WriterOk;
    hide MsgType;
    hide DataQuotaWaits;
    hide SrcPort;
    var a := SlotIndex(out.localTxPos - 1);
    var q := st.quotas[i];
    PortSlotsBelow(st, i);
    hide PortSlots;
    RecordCounts(st, svc, m, out);
    SlotsOneMore(st.sent, Sent(m, a), i);
    CountOne(PortSlots(st.sent, i), q.slotUse, q.previousTx, st.out.localTxPos, a, out.localTxPos);
  }

  lemma PortSlotsBelow(st: State, i: nat)
    requires SlotsBelow(st)
    ensures forall s | s in PortSlots(st.sent, i) :: s * SLOT_SIZE < st.out.localTxPos
  {
    hide IsData;
  }

  lemma RecordSkipsPort(st: State, svc: Option<nat>, m: Msg, out: Side, i: nat)
    requires Sized(st) && Known(st, svc) && WriterOk(out) && st.out.localTxPos < out.localTxPos
    requires MsgType(m.id) == Some(DATA) ==> Admitted(st, svc, m)
    requires SlotsBelow(st) && i < MAX_SERVICES && PortCountOk(st, i)
    requires i < st.unused ==> MsgType(m.id) != Some(DATA) || svc != Some(i)
    ensures PortCountOk(Record(st, svc, m, out), i)
  {
    hide Record;
    hide Counts;
    hide WriterOk;
    hide MsgType;
    hide DataQuotaWaits;
    hide SrcPort;
    hide PortSlots;
    var q := st.quotas[i];
    RecordCounts(st, svc, m, out);
    SlotsOneMore(st.sent, Sent(m, SlotIndex(out.localTxPos - 1)), i);
    assert PortSlots(st.sent, i) + {} == PortSlots(st.sent, i);
    if i < st.unused {
      CountsLater(PortSlots(st.sent, i), q.slotUse, q.previousTx, st.out.localTxPos, out.localTxPos);
    }
  }

  lemma RecordKeepsQuota(st: State, svc: Option<nat>, m: Msg, out: Side)
    requires QuotaOk(st) && Known(st, svc) && Stride(m) <= SLOT_SIZE
    requires Queue(st.writer, st.out, m) == Some(out) && WriterOk(out)
    requires MsgType(m.id) == Some(DATA) ==> Admitted(st, svc, m)
    ensures 0 < out.localTxPos && QuotaOk(Record(st, svc, m, out))
  {
    hide Queue;
    hide Record;
    hide Counts;
    hide DataCountOk;
    hide PortCountOk;
    hide Admitted;
    hide MsgType;
    hide WriterOk;
    OutGrows(st.writer, st.out, m, out);
    RecordCounts(st, svc, m, out);
    RecordKeepsData(st, svc, m, out);
    forall i | 0 <= i < MAX_SERVICES
      ensures PortCountOk(Record(st, svc, m, out), i)
    {
      RecordKeepsPort(st, svc, m, out, i);
    }
    var r := Record(st, svc, m, out);
    assert forall y | y in r.sent :: y in st.sent || y == r.sent[|st.sent|];
  }

  /** The counters after recording. */
  lemma RecordCounts(st: State, svc: Option<nat>, m: Msg, out: Side)
    requires Sized(st) && Known(st, svc) && WriterOk(out) && 0 < out.localTxPos
    requires MsgType(m.id) == Some(DATA) ==> svc.Some?
    ensures var r := Record(st, svc, m, out);
            var a := SlotIndex(out.localTxPos - 1);
            && r.unused == st.unused && r.dataQuota == st.dataQuota && r.out == out
            && r.sent == st.sent + [Sent(m, a)]
            && (if MsgType(m.id) == Some(DATA) then
                  var p := st.services[svc.value].value.localport;
                  && (if a != st.previousData then r.previousData == a && r.dataUse == st.dataUse + 1
                      else r.previousData == st.previousData && r.dataUse == st.dataUse)
                  && r.quotas == st.quotas[p := CountSlot(st.quotas[p], a)]
                else r.previousData == st.previousData && r.dataUse == st.dataUse && r.quotas == st.quotas)
  {
    hide WriterOk;
    hide MsgType;
  }

  lemma QueuedKeepsQuota(st: State, svc: Option<nat>, m: Msg)
    requires QuotaOk(st) && Known(st, svc) && Stride(m) <= SLOT_SIZE && QueueMessage(st, svc, m).Queued?
    requires svc.Some? ==> svc.value < st.unused && st.services[svc.value].value.localport == svc.value
    requires MsgType(m.id) == Some(DATA) && svc.Some? ==> SrcPort(m.id) == svc.value
    ensures QuotaOk(QueueMessage(st, svc, m).st)
  {
    hide QueueMessage;
    hide Record;
    hide QuotaOk;
    hide Admitted;
    hide WriterOk;
    hide MsgType;
    assert st.unused <= MAX_SERVICES;
    QueuedChanges(st, svc, m);
    var r := QueueMessage(st, svc, m).st;
    if MsgType(m.id) == Some(DATA) {
      QueuedIsAdmitted(st, svc, m);
    }
    RecordKeepsQuota(st, svc, m, r.out);
  }

  lemma QueuedIsAdmitted(st: State, svc: Option<nat>, m: Msg)
    requires Sized(st) && st.unused <= MAX_SERVICES && Known(st, svc) && Stride(m) <= SLOT_SIZE
    requires QueueMessage(st, svc, m).Queued? && MsgType(m.id) == Some(DATA) && svc.Some?
    requires svc.value < st.unused && st.services[svc.value].value.localport == svc.value == SrcPort(m.id)
    ensures Admitted(st, svc, m)
  {
    hide Transmit;
    hide WriterOk;
  }

  /** Nothing that the counters depend on has changed. */
  lemma SameCounts(a: State, b: State)
    requires QuotaOk(a) && Sized(b) && b.out == a.out && b.sent == a.sent && b.unused == a.unused
    requires b.dataUse == a.dataUse && b.previousData == a.previousData && b.dataQuota == a.dataQuota
    requires forall i | 0 <= i < MAX_SERVICES ::
               var q, r := a.quotas[i], b.quotas[i];
               r.slotUse == q.slotUse && r.slotQuota == q.slotQuota && r.previousTx == q.previousTx
    ensures QuotaOk(b)
  {
    hide Counts;
    hide WriterOk;
    forall i | 0 <= i < MAX_SERVICES ensures PortCountOk(b, i) {
      assert PortCountOk(a, i);
    }
  }

  /** A new service starts below every slot its messages can reach. */
  lemma AddKeepsQuota(st: State)
    requires TableOk(st) && QuotaOk(st)
    ensures QuotaOk(AddService(st).0)
  {
    AddUsesNext(st);
    var r := AddService(st).0;
    AddCounts(st);
    hide AddService;
    forall i | 0 <= i < MAX_SERVICES ensures PortCountOk(r, i) {
      assert PortCountOk(st, i);
    }
  }

  lemma AddCounts(st: State)
    requires TableOk(st) && QuotaOk(st)
    ensures var r := AddService(st).0;
            && r.out == st.out && r.sent == st.sent && r.dataUse == st.dataUse && r.previousData == st.previousData
            && r.dataQuota == st.dataQuota
            && (st.unused == MAX_SERVICES ==> r.quotas == st.quotas)
            && (st.unused < MAX_SERVICES ==>
                  && |r.quotas| == MAX_SERVICES
                  && (forall i | 0 <= i < MAX_SERVICES && i != st.unused :: r.quotas[i] == st.quotas[i])
                  && r.quotas[st.unused].slotUse == 0
                  && r.quotas[st.unused].previousTx == SlotIndex(st.out.localTxPos) - 1)
  {
    AddUsesNext(st);
    if st.unused < MAX_SERVICES {
      assert PortCountOk(st, st.unused);
    }
  }

  lemma ConnectKeepsQuota(y: System)
    requires LifeOk(y) && QuotaOk(y.st) && ConnectStep(y).Some?
    ensures QuotaOk(ConnectStep(y).value.st)
  {
    hide QueueMessage;
    hide LifeOk;
    hide QuotaOk;
    var m := Msg(MakeMsgId(CONNECT, 0, 0), []);
    MsgIdRoundTrip(CONNECT, 0, 0);
    if y.st.connected {
    } else {
      if y.st.conn == DISCONNECTED && QueueMessage(y.st, None, m).Queued? {
        QueuedKeepsQuota(y.st, None, m);
        SameCounts(QueueMessage(y.st, None, m).st, ConnectStep(y).value.st);
      } else {
        SameCounts(y.st, ConnectStep(y).value.st);
      }
    }
  }

  lemma CreateKeepsQuota(y: System, open: seq<byte>)
    requires LifeOk(y) && QuotaOk(y.st) && |open| == OPEN_PAYLOAD_SIZE && CreateStep(y, open).Some?
    ensures QuotaOk(CreateStep(y, open).value.st)
  {
    if y.st.connected {
      hide QueueMessage;
      hide AddService;
      hide QuotaOk;
      AddUsesNext(y.st);
      AddKeepsQuota(y.st);
      var (st, index) := AddService(y.st);
      if index.Some? {
        var m := Msg(MakeMsgId(MessageType.OPEN, st.services[index.value].value.localport, 0), open);
        MsgIdRoundTrip(MessageType.OPEN, y.st.unused, 0);
        QueuedKeepsQuota(st, None, m);
      }
    }
  }

  lemma PollsKeepQuota(y: System, h: nat)
    requires SystemOk(y) && QuotaOk(y.st)
    ensures PollOpenStep(y, h).Some? ==> QuotaOk(PollOpenStep(y, h).value.st)
    ensures PollCloseStep(y, h).Some? ==> QuotaOk(PollCloseStep(y, h).value.st)
  {
    hide QuotaOk;
    if PollOpenStep(y, h).Some? && Sized(PollOpenStep(y, h).value.st) {
      SameCounts(y.st, PollOpenStep(y, h).value.st);
    }
    if PollCloseStep(y, h).Some? && Sized(PollCloseStep(y, h).value.st) {
      SameCounts(y.st, PollCloseStep(y, h).value.st);
    }
  }

  lemma CloseKeepsQuota(y: System, h: nat)
    requires LifeOk(y) && QuotaOk(y.st) && CloseStep(y, h).Some?
    ensures QuotaOk(CloseStep(y, h).value.st)
  {
    hide BeginClose;
    hide PollCloseStep;
    hide QuotaOk;
    var found := ServiceFromHandle(y.st, h);
    if found.Some? {
      var i := found.value;
      FoundIsBelow(y.st, h, i);
      if TheService(y, i).state !in {FREE, LISTENING, HIDDEN} {
        BeginCloseKeepsQuota(y, i);
        BeginCloseKeepsLife(y, i);
        PollsKeepQuota(BeginClose(y, i).value, h);
      }
    }
  }

  lemma BeginCloseKeepsQuota(y: System, i: nat)
    requires LifeOk(y) && QuotaOk(y.st) && i < y.st.unused && y.clients[i] in {Opened, Closed}
    requires TheService(y, i).state !in {FREE, LISTENING, HIDDEN} && BeginClose(y, i).Some?
    ensures QuotaOk(BeginClose(y, i).value.st)
  {
    hide QueueMessage;
    hide QuotaOk;
    hide WriterOk;
    hide CloseMessage;
    var s := TheService(y, i).(closing := true);
    assert Settled(TheService(y, i), y.clients[i]);
    if s.state == CLOSEWAIT {
      SameCounts(y.st, BeginClose(y, i).value.st);
    } else {
      var st := SetService(y.st, i, s);
      CloseMessageIsClose(s);
      SameCounts(y.st, st);
      QueuedKeepsQuota(st, Some(i), CloseMessage(s));
    }
  }

  lemma SendKeepsQuota(y: System, h: nat, data: seq<byte>)
    requires LifeOk(y) && QuotaOk(y.st) && CalcMsgStride(|data|) <= SLOT_SIZE && SendStep(y, h, data).Some?
    ensures QuotaOk(SendStep(y, h, data).value.st)
  {
    hide QueueMessage;
    hide QuotaOk;
    hide WriterOk;
    var found := ServiceFromHandle(y.st, h);
    if found.Some? {
      var i := found.value;
      FoundIsBelow(y.st, h, i);
      var s := TheService(y, i);
      assert Settled(s, y.clients[i]);
      var m := Msg(MakeMsgId(DATA, s.localport, s.remoteport), data);
      if QueueMessage(y.st, Some(i), m).Queued? {
        SentIsData(y.st, i, m);
        QueuedKeepsQuota(y.st, Some(i), m);
      }
    }
  }

  lemma ReceiveKeepsQuota(y: System, m: Msg)
    requires LifeOk(y) && QuotaOk(y.st) && ReceiveStep(y, m).Some?
    ensures QuotaOk(ReceiveStep(y, m).value.st)
  {
    hide QuotaOk;
    hide MsgType;
    hide OnClose;
    hide OnOpenAck;
    hide WriterOk;
    SameCounts(y.st, ReceiveStep(y, m).value.st);
  }

  lemma StepKeepsQuota(y: System, op: Op)
    requires LifeOk(y) && QuotaOk(y.st) && Fits(op) && Step(y, op).Some?
    ensures QuotaOk(Step(y, op).value.st)
  {
    hide LifeOk;
    hide QuotaOk;
    match op
    case Connect => ConnectKeepsQuota(y);
    case Create(open) => CreateKeepsQuota(y, open);
    case PollOpen(h) => PollsKeepQuota(y, h);
    case Close(h) => CloseKeepsQuota(y, h);
    case PollClose(h) => PollsKeepQuota(y, h);
    case Send(h, data) => SendKeepsQuota(y, h, data);
    case Receive(m) => ReceiveKeepsQuota(y, m);
  }

  lemma {:induction false} RunKeepsQuota(y: System, ops: seq<Op>)
    requires LifeOk(y) && QuotaOk(y.st) && (forall op | op in ops :: Fits(op)) && Run(y, ops).Some?
    ensures QuotaOk(Run(y, ops).value.st)
    decreases |ops|
  {
    if ops != [] {
      hide Step;
      hide LifeOk;
      hide QuotaOk;
      StepKeepsQuota(y, ops[0]);
      StepKeepsLife(y, ops[0]);
      RunKeepsQuota(Step(y, ops[0]).value, ops[1..]);
    }
  }

  lemma InitialQuota(y: System)
    requires Initial(y)
    ensures QuotaOk(y.st) && LifeOk(y)
  {
  }

  /**
   * Over every run the counters are exact and bounded: as many slots count as hold data messages, of all services
   * and of each, and neither count passes its quota.
   */
  lemma CountersExactAndBounded(y: System, ops: seq<Op>, i: nat)
    requires Initial(y) && (forall op | op in ops :: Fits(op))
    requires LifeOk(y) && Run(y, ops).Some? && i < Run(y, ops).value.st.unused
    ensures var st := Run(y, ops).value.st;
            && st.dataUse == |DataSlots(st.sent)| <= st.dataQuota
            && st.quotas[i].slotUse == |PortSlots(st.sent, i)| <= st.quotas[i].slotQuota
  {
    InitialQuota(y);
    RunKeepsQuota(y, ops);
    assert PortCountOk(Run(y, ops).value.st, i);
  }
}
