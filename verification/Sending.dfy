/** Exactly when a data message is let through, told from the messages sent so far. */
module Sending {
  import opened Config
  import opened SlotMessage
  import opened Transport
  import RT = RoundTrip
  import opened Service
  import opened State
  import opened System
  import opened Lifecycle
  import opened Quota
  import QuotaWaits

  /** Where a message would start, and the slot it would end in, which is the one it would lie in. */
  function StartOf(st: State, m: Msg): nat {
    StartPos(st.out.localTxPos, Stride(m))
  }

  function SlotOf(st: State, m: Msg): nat {
    (StartOf(st, m) + Stride(m) - 1) / SLOT_SIZE
  }

  /**
   * A data message of port `i` would need one slot more than allowed: than all data may use, which is one less than
   * there are, or than one service may use, which is half of them.
   */
  predicate OverQuota(st: State, i: nat, m: Msg) {
    var slot := SlotOf(st, m);
    || (slot !in DataSlots(st.sent) && |DataSlots(st.sent)| == st.out.avail - 1)
    || (slot !in PortSlots(st.sent, i) && |PortSlots(st.sent, i)| == st.out.avail / 2)
  }

  /** The slot last counted is the only counted one that a new message can lie in. */
  lemma LastCountedIff(slots: set<nat>, use: nat, prev: int, pos: nat, slot: nat, end: nat)
    requires Counts(slots, use, prev, pos) && forall s | s in slots :: s * SLOT_SIZE < pos
    requires pos < end && slot == (end - 1) / SLOT_SIZE
    ensures slot == prev <==> slot in slots
  {
    assert slot * SLOT_SIZE < end;
    if slot in slots {
      assert prev * SLOT_SIZE < pos;
    }
  }

  /** The condition of the first loop, in terms of the messages sent. */
  lemma DataWaitsIff(st: State, m: Msg)
    requires QuotaOk(st) && QuotaWaits.LimitsOk(st) && Stride(m) <= SLOT_SIZE
    ensures DataQuotaWaits(st, SlotIndex(st.out.localTxPos + Stride(m) - 1))
       <==> SlotOf(st, m) !in DataSlots(st.sent) && |DataSlots(st.sent)| == st.out.avail - 1
  {
    hide PortCountOk;
    var pos, end := st.out.localTxPos, StartOf(st, m) + Stride(m);
    StartPosFits(pos, Stride(m), st.out.avail);
    PredictedSlotIsActual(pos, Stride(m));
    DataSlotsBelow(st);
    hide DataSlots;
    LastCountedIff(DataSlots(st.sent), st.dataUse, st.previousData, pos, SlotOf(st, m), end);
  }

  /** The condition of the second, where there are slots enough for any data. */
  lemma ServiceWaitsIff(st: State, i: nat, m: Msg)
    requires QuotaOk(st) && QuotaWaits.LimitsOk(st) && i < st.unused && Stride(m) <= SLOT_SIZE && st.out.avail >= 2
    ensures ServiceQuotaWaits(st.quotas[i], SlotIndex(st.out.localTxPos + Stride(m) - 1))
       <==> SlotOf(st, m) !in PortSlots(st.sent, i) && |PortSlots(st.sent, i)| == st.out.avail / 2
  {
    hide DataCountOk;
    var pos, end := st.out.localTxPos, StartOf(st, m) + Stride(m);
    StartPosFits(pos, Stride(m), st.out.avail);
    PredictedSlotIsActual(pos, Stride(m));
    assert PortCountOk(st, i);
    PortSlotsBelow(st, i);
    hide PortSlots;
    LastCountedIff(PortSlots(st.sent, i), st.quotas[i].slotUse, st.quotas[i].previousTx, pos, SlotOf(st, m), end);
  }

  /** A side with a single slot sends no data at all. */
  lemma NoSlotsNoData(st: State)
    requires QuotaOk(st) && QuotaWaits.LimitsOk(st) && st.out.avail == 1
    ensures DataSlots(st.sent) == {}
  {
    hide DataSlots;
  }

  lemma WaitsIff(st: State, i: nat, m: Msg)
    requires QuotaOk(st) && QuotaWaits.LimitsOk(st) && i < st.unused && Stride(m) <= SLOT_SIZE
    ensures var txEnd := SlotIndex(st.out.localTxPos + Stride(m) - 1);
            DataQuotaWaits(st, txEnd) || ServiceQuotaWaits(st.quotas[i], txEnd) <==> OverQuota(st, i, m)
  {
    DataWaitsIff(st, m);
    if st.out.avail >= 2 {
      ServiceWaitsIff(st, i, m);
    } else {
      NoSlotsNoData(st);
    }
    hide DataQuotaWaits;
    hide DataSlots;
    hide PortSlots;
    hide SlotOf;
    hide DataCountOk;
    hide PortCountOk;
  }

  /** What becomes of a data message of a service that is not closing. */
  lemma QueueDecides(st: State, i: nat, m: Msg)
    requires QuotaOk(st) && QuotaWaits.LimitsOk(st) && i < st.unused && st.services[i].Some?
    requires st.services[i].value.localport == i && !st.services[i].value.closing
    requires MsgType(m.id) == Some(DATA) && Stride(m) <= SLOT_SIZE
    ensures var fits := StartOf(st, m) + Stride(m) <= st.out.avail * SLOT_SIZE;
            var q := QueueMessage(st, Some(i), m);
            if OverQuota(st, i, m) then q.Blocked? else if fits then q.Queued? else q.Panicked?
  {
    hide OverQuota;
    hide QuotaWaits.LimitsOk;
    hide MsgType;
    hide Queue;
    hide DataQuotaWaits;
    hide ServiceQuotaWaits;
    WaitsIff(st, i, m);
    RT.QueueEnds(st.writer, st.out, m);
    hide WriterOk;
  }

  /**
   * Exactly when a client's data is sent. In every run, for a service that is open and not closing: the message is
   * queued unless it would need one slot more than the quotas allow, in which case it waits for ever, or does not fit
   * the slots any more. A message that ends in a slot already counted is never held back.
   */
  lemma SendDecides(y: System, ops: seq<Op>, i: nat, data: seq<byte>)
    requires Initial(y) && LifeOk(y) && (forall op | op in ops :: Fits(op)) && Run(y, ops).Some?
    requires i < Run(y, ops).value.st.unused && CalcMsgStride(|data|) <= SLOT_SIZE
    requires var r := Run(y, ops).value;
             !TheService(r, i).closing && r.clients[i] !in {WaitOpen, OpenFailed}
    ensures var r := Run(y, ops).value;
            var s := TheService(r, i);
            var m := Msg(MakeMsgId(DATA, s.localport, s.remoteport), data);
            var fits := StartOf(r.st, m) + Stride(m) <= r.st.out.avail * SLOT_SIZE;
            && QueueMessage(r.st, Some(i), m).Blocked? == OverQuota(r.st, i, m)
            && QueueMessage(r.st, Some(i), m).Queued? == (!OverQuota(r.st, i, m) && fits)
            && SendStep(r, s.handle, data).Some? == (!OverQuota(r.st, i, m) && fits)
  {
    InitialQuota(y);
    RunKeepsQuota(y, ops);
    InitialLimits(y);
    QuotaWaits.RunKeepsEventsOk(y, ops);
    hide Run;
    hide Initial;
    hide QuotaOk;
    hide OverQuota;
    hide SendStep;
    hide QueueMessage;
    hide QuotaWaits.LimitsOk;
    hide QuotaWaits.EventsOk;
    var r := Run(y, ops).value;
    OpenIs(r, i);
    hide LifeOk;
    SendIs(r, i, data);
  }

  /** A service whose client may send, and which is not closing. */
  lemma OpenIs(r: System, i: nat)
    requires LifeOk(r) && i < r.st.unused && !TheService(r, i).closing && r.clients[i] !in {WaitOpen, OpenFailed}
    ensures ServiceFromHandle(r.st, TheService(r, i).handle) == Some(i)
    ensures TheService(r, i).localport == i && TheService(r, i).remoteport < PORT_FREE
  {
    HandleFinds(r.st, i);
    assert Settled(TheService(r, i), r.clients[i]);
  }

  lemma SendIs(r: System, i: nat, data: seq<byte>)
    requires SystemOk(r) && QuotaOk(r.st) && QuotaWaits.LimitsOk(r.st) && i < r.st.unused && r.st.services[i].Some?
    requires ServiceFromHandle(r.st, TheService(r, i).handle) == Some(i) && TheService(r, i).localport == i
    requires CalcMsgStride(|data|) <= SLOT_SIZE && TheService(r, i).remoteport < PORT_FREE
    requires !TheService(r, i).closing && r.clients[i] !in {WaitOpen, OpenFailed}
    ensures var s := TheService(r, i);
            var m := Msg(MakeMsgId(DATA, s.localport, s.remoteport), data);
            var fits := StartOf(r.st, m) + Stride(m) <= r.st.out.avail * SLOT_SIZE;
            && QueueMessage(r.st, Some(i), m).Blocked? == OverQuota(r.st, i, m)
            && QueueMessage(r.st, Some(i), m).Queued? == (!OverQuota(r.st, i, m) && fits)
            && SendStep(r, s.handle, data).Some? == (!OverQuota(r.st, i, m) && fits)
  {
    hide QuotaOk;
    hide OverQuota;
    hide WriterOk;
    hide StartOf;
    var s := TheService(r, i);
    TypeSurvives(DATA, s.localport, s.remoteport);
    hide MakeMsgId;
    hide MsgType;
    QueueDecides(r.st, i, Msg(MakeMsgId(DATA, s.localport, s.remoteport), data));
    hide QueueMessage;
    hide QuotaWaits.LimitsOk;
  }

  lemma InitialLimits(y: System)
    requires Initial(y)
    ensures QuotaWaits.EventsOk(y.st) && QuotaWaits.LimitsOk(y.st)
  {
  }
}
