/** The ARM side's state and its operations, each one atomic (src/vchiq/state.rs, src/vchiq/slothandler.rs). */
module State {
  import opened Config
  import opened SlotMessage
  import opened Transport
  import opened Service

  /** A message queued so far, and the index of the slot that holds it. */
  datatype Sent = Sent(m: Msg, slot: nat)

  datatype State = State(
    writer: Variant,                // the reading of reserve_space followed
    out: Side,
    // quota state
    previousData: int,
    dataUse: nat,
    dataQuota: nat,
    quotas: seq<ServiceQuota>,
    // services
    services: seq<Option<Service>>,
    unused: nat,
    nextHandle: nat,
    slotQuota: nat,                 // default_slot_quota
    messageQuota: nat,              // default_message_quota
    // connection
    conn: ConnectState,
    connectEvent: nat,
    connected: bool,
    // history: every message queued, in order
    sent: seq<Sent>)

  predicate Sized(st: State) {
    && WriterOk(st.out)
    && |st.services| == MAX_SERVICES && |st.quotas| == MAX_SERVICES
    && forall i | 0 <= i < MAX_SERVICES && st.services[i].Some? :: st.services[i].value.localport < MAX_SERVICES
                                                              && st.services[i].value.remoteport <= PORT_FREE
  }

  function SlotIndex(pos: int): (i: int)
    ensures pos >= 0 ==> i >= 0
  {
    pos / SLOT_SIZE
  }

  // ----- queue_message -----

  datatype QueueResult = Queued(st: State) | Refused(error: Error) | Blocked | Panicked

  /** The condition of the loop on the quota of all data messages. */
  predicate DataQuotaWaits(st: State, txEnd: int) {
    txEnd != st.previousData && st.dataUse == st.dataQuota
  }

  /** The condition of the loop on the quota of one service. */
  predicate ServiceQuotaWaits(q: ServiceQuota, txEnd: int) {
    || q.messageUse == q.messageQuota
    || (txEnd != q.previousTx && q.slotUse == q.slotQuota)
  }

  function CountSlot(q: ServiceQuota, txEnd: int): ServiceQuota {
    if txEnd != q.previousTx then q.(previousTx := txEnd, slotUse := q.slotUse + 1) else q
  }

  /** The quota counters after a data message of the service with port `p` ended in slot `txEnd`. */
  function CountData(st: State, p: nat, txEnd: int): State
    requires p < |st.quotas|
  {
    var st1 := if txEnd != st.previousData then st.(previousData := txEnd, dataUse := st.dataUse + 1) else st;
    st1.(quotas := st1.quotas[p := CountSlot(st1.quotas[p], txEnd)])
  }

  /**
   * May a data message of service `s` be queued now? Nothing else runs while the call waits, so that waiting is for
   * ever, whatever the semaphores waited for count (QuotaWaits.WaitingIsForEver).
   */
  function Admit(st: State, s: Service, stride: nat): QueueResult
    requires Sized(st) && s.localport < MAX_SERVICES
  {
    var txEnd := SlotIndex(st.out.localTxPos + stride - 1);
    if s.closing then Refused(ServiceAlreadyClosed)
    else if DataQuotaWaits(st, txEnd) || ServiceQuotaWaits(st.quotas[s.localport], txEnd) then Blocked
    else Queued(st)
  }

  function SetService(st: State, i: nat, s: Service): State
    requires i < |st.services|
  {
    st.(services := st.services[i := Some(s)])
  }

  /** The service argument of queue_message, where there is one, is in the table. */
  predicate Known(st: State, svc: Option<nat>) {
    svc.Some? ==> svc.value < |st.services| && st.services[svc.value].Some?
  }

  /** What queue_message records once the message is stored: counters, and the state of a service that closes. */
  function Record(st: State, svc: Option<nat>, m: Msg, out: Side): (r: State)
    requires Sized(st) && Known(st, svc) && WriterOk(out) && 0 < out.localTxPos
    requires MsgType(m.id) == Some(DATA) ==> svc.Some?
    ensures Sized(r) && r.out == out
  {
    var txEnd := SlotIndex(out.localTxPos - 1);
    var st1 := if MsgType(m.id) == Some(DATA)
               then CountData(st, st.services[svc.value].value.localport, txEnd) else st;
    var st2 := st1.(out := out, sent := st.sent + [Sent(m, txEnd)]);
    if svc.Some? && MsgType(m.id) == Some(CLOSE)
    then SetService(st2, svc.value, st2.services[svc.value].value.(state := CLOSESENT)) else st2
  }

  /** Reserve, store, publish and record. */
  function Transmit(st: State, svc: Option<nat>, m: Msg): (r: QueueResult)
    requires Sized(st) && Stride(m) <= SLOT_SIZE && Known(st, svc)
    requires MsgType(m.id) == Some(DATA) ==> svc.Some?
    ensures r.Queued? || r.Panicked?
    ensures r.Queued? ==> Sized(r.st) && r.st.unused == st.unused
  {
    match Queue(st.writer, st.out, m)
    case None => Panicked
    case Some(out) =>
      QueueKeepsWriterOk(st.writer, st.out, m);
      Queued(Record(st, svc, m, out))
  }

  function QueueMessage(st: State, svc: Option<nat>, m: Msg): (r: QueueResult)
    requires Sized(st) && Stride(m) <= SLOT_SIZE && Known(st, svc)
    ensures r.Queued? ==> Sized(r.st) && r.st.unused == st.unused
  {
    if MsgType(m.id) == Some(DATA) then
      if svc.None? then Refused(DataMessageWithoutService)
      else
        var admitted := Admit(st, st.services[svc.value].value, Stride(m));
        if admitted.Queued? then Transmit(st, svc, m) else admitted
    else Transmit(st, svc, m)
  }

  // ----- the service table -----

  function FirstNone(services: seq<Option<Service>>, from: nat, end: nat): (r: Option<nat>)
    requires from <= end <= |services|
    ensures r.Some? ==> from <= r.value < end && services[r.value].None?
    ensures r.None? ==> (forall i | from <= i < end :: services[i].Some?)
    decreases end - from
  {
    if from == end then None
    else if services[from].None? then Some(from)
    else FirstNone(services, from + 1, end)
  }

  /** The entry a new service takes: the first one not taken below `unused`, or else `unused` itself. */
  function FreeEntry(services: seq<Option<Service>>, unused: nat): (r: Option<nat>)
    requires unused <= MAX_SERVICES == |services|
    ensures r.Some? ==> r.value < MAX_SERVICES
  {
    var free := FirstNone(services, 0, unused);
    if free.Some? then free else if unused < MAX_SERVICES then Some(unused) else None
  }

  /** The quotas once port `i` has been given its own; one not used yet starts from where the writer stands. */
  function StartQuota(st: State, i: nat): (r: seq<ServiceQuota>)
    requires i < |st.quotas|
    ensures |r| == |st.quotas|
  {
    var q := st.quotas[i].(slotQuota := st.slotQuota, messageQuota := st.messageQuota);
    st.quotas[i := if q.slotUse == 0 then q.(previousTx := SlotIndex(st.out.localTxPos) - 1) else q]
  }

  /** The new service takes entry `i` of the table, and its quota is started. */
  function Enter(st: State, i: nat, s: Service): (r: State)
    requires i < |st.services| && i < |st.quotas|
    ensures r.services == st.services[i := Some(s)]
  {
    SetService(st, i, s).(unused := st.unused + 1, quotas := StartQuota(st, i))
  }

  /** add_service for a service to be opened: the new state, and the index used. */
  function AddService(st: State): (r: (State, Option<nat>))
    requires Sized(st) && st.unused <= MAX_SERVICES
    ensures Sized(r.0)
    ensures r.1.Some? ==> r.1.value < MAX_SERVICES && r.0.services[r.1.value].Some?
  {
    var st1 := st.(nextHandle := st.nextHandle + 1);
    match FreeEntry(st.services, st.unused)
    case None => (st1, None)
    case Some(i) => (Enter(st1, i, NewService(st.nextHandle).(localport := i, state := OPENING)), Some(i))
  }

  function ServiceByPort(st: State, port: nat): (r: Option<nat>)
    requires Sized(st) && port < MAX_SERVICES
    ensures r.Some? ==> r.value < MAX_SERVICES && st.services[r.value].Some?
  {
    if st.services[port].Some? && st.services[port].value.state != FREE then Some(port) else None
  }

  function FindHandle(services: seq<Option<Service>>, handle: nat, from: nat): (r: Option<nat>)
    requires from <= |services|
    ensures r.Some? ==> from <= r.value < |services| && services[r.value].Some?
                        && services[r.value].value.handle == handle
    ensures r.Some? ==> (forall i | from <= i < r.value :: services[i].Some? ==> services[i].value.handle != handle)
    ensures r.None? ==> (forall i | from <= i < |services| :: services[i].Some? ==> services[i].value.handle != handle)
    decreases |services| - from
  {
    if from == |services| then None
    else if services[from].Some? && services[from].value.handle == handle then Some(from)
    else FindHandle(services, handle, from + 1)
  }

  function ServiceFromHandle(st: State, handle: nat): (r: Option<nat>) {
    FindHandle(st.services, handle, 0)
  }

  // ----- freeing and closing -----

  /** free_service: an error in the other states leaves the service as it is. */
  function FreeService(s: Service): Service {
    if s.state in {OPENING, CLOSED, HIDDEN, LISTENING, CLOSEWAIT}
    then s.(state := FREE, removeEvent := s.removeEvent + 1) else s
  }

  function CloseServiceComplete(s: Service): Service {
    if s.state !in {ServiceState.OPEN, CLOSESENT, CLOSERECVD, LISTENING} then s
    else
      var s1 := if s.state == LISTENING then s else s.(state := CLOSED);
      var s2 := s1.(remoteport := PORT_FREE);
      if s2.state == CLOSED then FreeService(s2)
      else if s2.state != CLOSEWAIT then s2.(removeEvent := s2.removeEvent + 1)
      else s2
  }

  // ----- messages from the other side -----

  /** What an OPENACK does to a service. */
  function OnOpenAck(s: Service, remotePort: nat, data: seq<byte>): Service {
    var s1 := if |data| >= 2 then s.(peerVersion := data[0] as nat + 0x100 * data[1] as nat) else s;
    if s1.state == OPENING
    then s1.(remoteport := remotePort, state := ServiceState.OPEN, removeEvent := s1.removeEvent + 1) else s1
  }

  /** What a CLOSE does to a service, once it is marked as closing. */
  function OnClose(s: Service): Service {
    match s.state
    case OPENING => s.(state := CLOSEWAIT, removeEvent := s.removeEvent + 1)
    case CLOSESENT => CloseServiceComplete(s)
    case _ => s
  }

  /** The outcome of one message: the new state, and the handle of the service whose callback is called. */
  datatype Dispatched = Dispatched(st: State, callback: Option<nat>) | Unimplemented

  /** The dispatch of one message in the parse loop; its todo!(), unimplemented!() and unreachable!() end the run. */
  function Dispatch(st: State, m: Msg): (r: Dispatched)
    requires Sized(st)
    ensures r.Dispatched? ==> Sized(r.st)
  {
    var localPort, remotePort := DstPort(m.id), SrcPort(m.id);
    var svc := ServiceByPort(st, localPort);
    match MsgType(m.id)
    case None => Unimplemented
    case Some(t) =>
      match t
      case CLOSE =>
        if svc.None? then Unimplemented
        else
          var s := st.services[svc.value].value;
          if s.remoteport != remotePort && s.remoteport != PORT_FREE && localPort == 0 then Unimplemented
          else
            var q := st.quotas[s.localport];
            var st1 := st.(quotas := st.quotas[s.localport := q.(quotaEvent := q.quotaEvent + 1)]);
            Dispatched(SetService(st1, svc.value, OnClose(s.(closing := true))), None)
      case OPENACK =>
        if svc.None? then Unimplemented
        else Dispatched(SetService(st, svc.value, OnOpenAck(st.services[svc.value].value, remotePort, m.data)), None)
      case DATA =>
        if svc.None? then Unimplemented
        else
          var s := st.services[svc.value].value;
          Dispatched(st, if s.remoteport == remotePort && s.state == ServiceState.OPEN then Some(s.handle) else None)
      case BULK_RX_DONE => if svc.None? then Unimplemented else Dispatched(st, None)
      case BULK_TX_DONE => if svc.None? then Unimplemented else Dispatched(st, None)
      case CONNECT => Dispatched(st.(connectEvent := st.connectEvent + 1), None)
      case PADDING => Dispatched(st, None)
      case _ => Unimplemented
  }
}
