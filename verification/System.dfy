/**
 * The calls a client can make, one atomic poll each, together with the messages the slot handler hands in
 * (src/vchiq/instance/mod.rs, src/vchiq/state.rs).
 */
module System {
  import opened Config
  import opened SlotMessage
  import opened Service
  import opened State

  /** Where the sequential client of a service stands. */
  datatype Phase = WaitOpen | Opened | OpenFailed | WaitClose | Closed | CloseFailed

  datatype System = System(st: State, clients: seq<Phase>)

  datatype Op =
    | Connect
    | Create(open: seq<byte>)              // create_service: add, queue OPEN, first poll
    | PollOpen(handle: nat)                // a later poll of the open
    | Close(handle: nat)                   // close_service and its first poll
    | PollClose(handle: nat)               // a later poll of the close
    | Send(handle: nat, data: seq<byte>)   // queue_message of the instance
    | Receive(m: Msg)                      // the slot handler dispatches one message

  /** What open_service sends along: fourcc, client id and two versions. */
  const OPEN_PAYLOAD_SIZE: nat := 12

  predicate SystemOk(y: System) {
    Sized(y.st) && y.st.unused <= MAX_SERVICES && |y.clients| == y.st.unused
  }

  function TheService(y: System, i: nat): Service
    requires SystemOk(y) && i < MAX_SERVICES && y.st.services[i].Some?
  {
    y.st.services[i].value
  }

  function Replace(y: System, i: nat, s: Service, p: Phase): System
    requires SystemOk(y) && i < |y.clients|
  {
    y.(st := SetService(y.st, i, s), clients := y.clients[i := p])
  }

  /** Instance::connect: CONNECT is queued once, then every poll tries the semaphore. */
  function ConnectStep(y: System): Option<System>
    requires SystemOk(y)
  {
    if y.st.connected then Some(y)     // AlreadyConnected
    else
      var queued := if y.st.conn == DISCONNECTED
                    then
                      MsgIdIsSum(CONNECT, 0, 0);
                      QueueMessage(y.st, None, Msg(MakeMsgId(CONNECT, 0, 0), []))
                    else Queued(y.st);
      if !queued.Queued? then None
      else
        var st := if y.st.conn == DISCONNECTED then queued.st.(conn := CONNECTING) else queued.st;
        if st.conn == CONNECTING then
          if st.connectEvent == 0 then Some(y.(st := st))
          else Some(y.(st := st.(connectEvent := st.connectEvent - 1, conn := CONNECTED, connected := true)))
        else Some(y.(st := st.(connected := true)))
  }

  /** Instance::create_service; None when the outgoing slots are used up. */
  function CreateStep(y: System, open: seq<byte>): Option<System>
    requires SystemOk(y) && |open| == OPEN_PAYLOAD_SIZE
  {
    if !y.st.connected then Some(y)    // NotConnected
    else
      var (st, index) := AddService(y.st);
      match index
      case None => Some(y.(st := st))  // UnableToAddService
      case Some(i) =>
        var m := Msg(MakeMsgId(MessageType.OPEN, st.services[i].value.localport, 0), open);
        var queued := QueueMessage(st, None, m);
        if queued.Queued? then Some(System(queued.st, y.clients + [WaitOpen])) else None
  }

  /** The rest of open_service: an error reaches the caller unless the service is open, or already closed again. */
  function PollOpenStep(y: System, h: nat): Option<System>
    requires SystemOk(y)
  {
    match ServiceFromHandle(y.st, h)
    case None => None
    case Some(i) =>
      if !(i < |y.clients| && y.clients[i] == WaitOpen) then None
      else
        var s := TheService(y, i);
        if s.removeEvent == 0 then Some(y)
        else Some(Replace(y, i, s.(removeEvent := s.removeEvent - 1),
                          if s.state in {ServiceState.OPEN, OPENSYNC, CLOSEWAIT} then Opened else OpenFailed))
  }

  /** The rest of close_service. */
  function PollCloseStep(y: System, h: nat): Option<System>
    requires SystemOk(y)
  {
    match ServiceFromHandle(y.st, h)
    case None => None
    case Some(i) =>
      if !(i < |y.clients| && y.clients[i] == WaitClose) then None
      else
        var s := TheService(y, i);
        if s.removeEvent == 0 then Some(y)
        else Some(Replace(y, i, s.(removeEvent := s.removeEvent - 1),
                          if s.state == FREE || s.state == LISTENING then Closed else CloseFailed))
  }

  function CloseMessage(s: Service): Msg
    requires s.localport < MAX_SERVICES
  {
    Msg(MakeMsgId(CLOSE, s.localport, s.remoteport % 0x1000), [])
  }

  /** close_service up to its first wait; `s` is the service already marked as closing. */
  function BeginClose(y: System, i: nat): (r: Option<System>)
    requires SystemOk(y) && i < |y.clients| && y.st.services[i].Some?
    ensures r.Some? ==> SystemOk(r.value)
  {
    var s := TheService(y, i).(closing := true);
    var st := SetService(y.st, i, s);
    match s.state
    case CLOSED => Some(Replace(y, i, FreeService(s), WaitClose))
    case CLOSEWAIT => Some(Replace(y, i, FreeService(s), WaitClose))
    case OPENING =>
      var queued := QueueMessage(st, Some(i), CloseMessage(s));
      if queued.Queued? then Some(System(queued.st, y.clients[i := WaitClose])) else None
    case OPEN =>
      var queued := QueueMessage(st, Some(i), CloseMessage(s));
      if queued.Queued? then Some(System(queued.st, y.clients[i := WaitClose])) else None
    case OPENSYNC =>
      var queued := QueueMessage(st, Some(i), CloseMessage(s));
      if queued.Queued? then Some(System(queued.st, y.clients[i := WaitClose])) else None
    case _ => None                     // todo!(), or ruled out before
  }

  /** Instance::close_service by a client whose open, or earlier close, has returned. */
  function CloseStep(y: System, h: nat): Option<System>
    requires SystemOk(y)
  {
    match ServiceFromHandle(y.st, h)
    case None => Some(y)               // ServiceNotFound
    case Some(i) =>
      if !(i < |y.clients| && y.clients[i] in {Opened, Closed}) then None
      else if TheService(y, i).state in {FREE, LISTENING, HIDDEN} then Some(y)   // UnableToCloseService
      else
        match BeginClose(y, i)
        case None => None
        case Some(y1) => PollCloseStep(y1, h)
  }

  /** Instance::queue_message by a client whose open has returned; errors leave everything as it is. */
  function SendStep(y: System, h: nat, data: seq<byte>): Option<System>
    requires SystemOk(y) && CalcMsgStride(|data|) <= SLOT_SIZE
  {
    match ServiceFromHandle(y.st, h)
    case None => Some(y)               // ServiceNotFound
    case Some(i) =>
      if !(i < |y.clients| && y.clients[i] !in {WaitOpen, OpenFailed}) then None
      else
        var s := TheService(y, i);
        match QueueMessage(y.st, Some(i), Msg(MakeMsgId(DATA, s.localport, s.remoteport), data))
        case Queued(st) => Some(y.(st := st))
        case Refused(_) => Some(y)
        case _ => None
  }

  function ReceiveStep(y: System, m: Msg): Option<System>
    requires SystemOk(y)
  {
    match Dispatch(y.st, m)
    case Dispatched(st, _) => Some(y.(st := st))
    case Unimplemented => None
  }

  /** Payload sizes the callers have to keep. */
  predicate Fits(op: Op) {
    && (op.Create? ==> |op.open| == OPEN_PAYLOAD_SIZE)
    && (op.Send? ==> CalcMsgStride(|op.data|) <= SLOT_SIZE)
  }

  /** One step; None when the step is blocked, out of turn for its client, or ends the run with a panic. */
  function Step(y: System, op: Op): Option<System>
    requires SystemOk(y) && Fits(op)
  {
    match op
    case Connect => ConnectStep(y)
    case Create(open) => CreateStep(y, open)
    case PollOpen(h) => PollOpenStep(y, h)
    case Close(h) => CloseStep(y, h)
    case PollClose(h) => PollCloseStep(y, h)
    case Send(h, data) => SendStep(y, h, data)
    case Receive(m) => ReceiveStep(y, m)
  }
}
