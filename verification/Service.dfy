/** Services, their quota records and the connection state (src/vchiq/service.rs, src/vchiq/state.rs). */
module Service {
  const PORT_FREE: nat := 0x1000

  datatype ServiceState =
    | FREE | HIDDEN | LISTENING | OPENING | OPEN | OPENSYNC | CLOSESENT | CLOSERECVD | CLOSEWAIT | CLOSED

  datatype Service = Service(
    handle: nat,
    state: ServiceState,
    localport: nat,
    remoteport: nat,
    closing: bool,
    removeEvent: nat,
    peerVersion: nat)

  datatype ServiceQuota = ServiceQuota(
    slotQuota: nat,
    slotUse: nat,
    messageQuota: nat,
    messageUse: nat,
    quotaEvent: nat,
    previousTx: int)

  datatype ConnectState = DISCONNECTED | CONNECTING | CONNECTED

  datatype Error =
    | NotConnected | AlreadyConnected | DataMessageWithoutService | ServiceAlreadyClosed
    | ServiceClosing | ServiceNotFound | UnableToAddService | UnableToOpenService | UnableToCloseService

  /** Service::new: every service takes the next handle, and starts without ports. */
  function NewService(handle: nat): Service {
    Service(handle, FREE, PORT_FREE, PORT_FREE, false, 0, 0)
  }
}
