/**
 * What a client's connect and close do up to their first wait, on the state kept in place (src/vchiq/state.rs,
 * src/vchiq/instance/mod.rs).
 */
module ClientCalls {
  import opened Config
  import opened SlotMessage
  import opened Transport
  import opened Service
  import opened ServiceObjects
  import opened StateObjects

  /** One poll of connect; CONNECT is queued at most once. It blocks until the other side's CONNECT has arrived. */
  method Connect(state: StateObject, ghost clients: seq<Sys.Phase>) returns (r: Outcome)
    requires state.Valid() && Sys.SystemOk(Sys.System(state.View(), clients))
    modifies state.Repr()
    ensures match Sys.ConnectStep(Sys.System(old(state.View()), clients))
            case Some(y) =>
              && state.Valid() && state.View() == y.st
              && r == (if old(state.connected) then Failed(AlreadyConnected)
                       else if old(state.connState) == CONNECTED || old(state.connect) > 0 then Done else Blocks)
              && (r != Blocks ==> state.connected)
            case None => r == Panics
  {
    hide WriterOk;
    hide St.QueueMessage;
    hide MakeMsgId;
    hide MsgType;
    if state.connected {
      return Failed(AlreadyConnected);
    }
    if state.connState == DISCONNECTED {
      var sent := SendConnect(state);
      if !sent {
        return Panics;
      }
    }
    if state.connState == CONNECTING {
      if state.connect == 0 {
        return Blocks;
      }
      TakeConnect(state);
    }
    SetConnected(state);
    return Done;
  }

  /** Queue CONNECT. */
  method SendConnect(state: StateObject) returns (ok: bool)
    requires state.Valid()
    modifies state.Repr()
    ensures state.Repr() == old(state.Repr())
    ensures var queued := St.QueueMessage(old(state.View()), None, Msg(MakeMsgId(CONNECT, 0, 0), []));
            if queued.Queued?
            then
              && ok && state.Valid() && state.View() == queued.st.(conn := CONNECTING)
              && state.connect == old(state.connect) && state.connected == old(state.connected)
            else !ok
  {
    hide WriterOk;
    hide St.QueueMessage;
    hide MakeMsgId;
    hide MsgType;
    MsgIdRoundTrip(CONNECT, 0, 0);
    var m := Msg(MakeMsgId(CONNECT, 0, 0), []);
    ConnectIsRecorded(state.View(), m);
    var r := state.QueueMessage(null, 0, m);
    if r != Done {
      return false;
    }
    SetConnState(state, CONNECTING);
    return true;
  }

  /** Queueing a CONNECT is refused or blocked by nothing, and leaves the rest of the connection as it is. */
  lemma ConnectIsRecorded(st: St.State, m: Msg)
    requires St.Sized(st) && Stride(m) <= SLOT_SIZE && MsgType(m.id) == Some(CONNECT)
    ensures var queued := St.QueueMessage(st, None, m);
            if queued.Queued?
            then queued.st.connectEvent == st.connectEvent && queued.st.connected == st.connected
            else queued.Panicked?
  {
    hide MsgType;
    hide Queue;
    hide WriterOk;
  }

  method SetConnState(state: StateObject, to: ConnectState)
    requires state.Valid()
    modifies state`connState
    ensures state.Valid() && state.View() == old(state.View()).(conn := to) && state.Repr() == old(state.Repr())
  {
    hide WriterOk;
    state.connState := to;
    state.srvState.NoneChanged();
  }

  method TakeConnect(state: StateObject)
    requires state.Valid() && state.connect > 0
    modifies state`connState, state`connect
    ensures state.Valid() && state.Repr() == old(state.Repr())
    ensures state.View() == old(state.View()).(connectEvent := old(state.connect) - 1, conn := CONNECTED)
  {
    hide WriterOk;
    state.connect := state.connect - 1;
    state.connState := CONNECTED;
    state.srvState.NoneChanged();
  }

  method SetConnected(state: StateObject)
    requires state.Valid()
    modifies state`connected
    ensures state.Valid() && state.View() == old(state.View()).(connected := true)
  {
    hide WriterOk;
    state.connected := true;
    state.srvState.NoneChanged();
  }

  // ----- add_service -----

  /** add_service for a service to be opened. */
  method AddService(state: StateObject) returns (handle: Option<nat>, ghost service: ServiceObject)
    requires state.Valid() && state.srvState.unusedService <= MAX_SERVICES
    modifies state`nextHandle, state.srvState, state.srvState.services, state.quotaState.serviceQuotas
    ensures state.Valid() && fresh(service) && state.Repr() <= old(state.Repr()) + {service}
    ensures var (st, index) := St.AddService(old(state.View()));
            && state.View() == st
            && handle == (if index.None? then None else Some(st.services[index.value].value.handle))
  {
    hide WriterOk;
    hide St.SlotIndex;
    hide St.Sized;
    hide St.FreeEntry;
    hide St.Enter;
    hide St.AddService;
    ghost var st := state.View();
    AddServiceIs(st);
    var newService := state.NewServiceObject();
    service := newService;
    var srvIndex := state.srvState.FreeEntry();
    assert srvIndex == St.FreeEntry(st.services, st.unused);
    if srvIndex.None? {
      assert state.View() == St.AddService(st).0;
      return None, service;
    }
    state.Enter(srvIndex.value, newService);
    assert state.View() == St.AddService(st).0;
    return Some(newService.handle), service;
  }

  /** The two outcomes of adding a service. */
  lemma AddServiceIs(st: St.State)
    requires St.Sized(st) && st.unused <= MAX_SERVICES
    ensures var st1 := st.(nextHandle := st.nextHandle + 1);
            var s := NewService(st.nextHandle);
            var free := St.FreeEntry(st.services, st.unused);
            var r := St.AddService(st);
            && r.1 == free
            && (free.None? ==> r.0 == st1)
            && (free.Some? ==> r.0 == St.Enter(st1, free.value, s.(localport := free.value, state := OPENING))
                               && r.0.services[free.value] == Some(s.(localport := free.value, state := OPENING)))
  {
  }

  // ----- close_service -----

  method MarkClosing(state: StateObject, service: ServiceObject, ghost at: nat)
    requires state.Valid() && state.At(service, at)
    modifies service`closing
    ensures state.Valid() && state.Repr() == old(state.Repr())
    ensures state.View() == St.SetService(old(state.View()), at, old(service.View()).(closing := true))
    ensures service.View() == old(service.View()).(closing := true)
  {
    hide WriterOk;
    state.InTable(service, at);
    service.closing := true;
    state.srvState.OneChanged(at);
  }

  method Free(state: StateObject, service: ServiceObject, ghost at: nat)
    requires state.Valid() && state.At(service, at)
    modifies service
    ensures state.Valid() && state.View() == St.SetService(old(state.View()), at, St.FreeService(old(service.View())))
  {
    hide WriterOk;
    state.InTable(service, at);
    service.Free();
    state.srvState.OneChanged(at);
  }

  method QueueClose(state: StateObject, service: ServiceObject, ghost at: nat) returns (r: Outcome)
    requires state.Valid() && state.At(service, at)
    modifies state.Repr()
    ensures old(service.View()).localport < MAX_SERVICES
    ensures match St.QueueMessage(old(state.View()), Some(at), Sys.CloseMessage(old(service.View())))
            case Queued(st) => r == Done && state.Valid() && state.View() == st
            case _ => r == Panics
  {
    state.InTable(service, at);
    var m := Msg(MakeMsgId(CLOSE, service.localport, service.remoteport % 0x1000), []);
    MsgIdRoundTrip(CLOSE, service.localport, service.remoteport % 0x1000);
    hide MakeMsgId;
    hide MsgType;
    hide WriterOk;
    r := state.QueueMessage(service, at, m);
  }

  /** The branches of closing, on the service already marked. */
  lemma BeginCloseIs(y: Sys.System, i: nat)
    requires Sys.SystemOk(y) && i < |y.clients| && y.st.services[i].Some?
    ensures var s := y.st.services[i].value.(closing := true);
            var st := St.SetService(y.st, i, s);
            var r := Sys.BeginClose(y, i);
            && (s.state in {CLOSED, CLOSEWAIT} ==> r.Some? && r.value.st == St.SetService(st, i, St.FreeService(s)))
            && (s.state in {OPENING, OPENSYNC, ServiceState.OPEN} ==>
                  match St.QueueMessage(st, Some(i), Sys.CloseMessage(s))
                  case Queued(st1) => r.Some? && r.value.st == st1
                  case _ => r.None?)
            && (s.state in {FREE, HIDDEN, LISTENING, CLOSESENT, CLOSERECVD} ==> r.None?)
  {
    hide WriterOk;
    hide St.QueueMessage;
    hide St.FreeService;
    hide Sys.CloseMessage;
    var s := y.st.services[i].value.(closing := true);
    assert y.st.services[i := Some(s)][i := Some(St.FreeService(s))] == y.st.services[i := Some(St.FreeService(s))];
  }

  /** close_service up to its first wait: what it does is decided by the service's state. */
  method BeginClose(state: StateObject, service: ServiceObject, ghost at: nat, ghost clients: seq<Sys.Phase>)
    returns (r: Outcome)
    requires state.Valid() && state.At(service, at) && Sys.SystemOk(Sys.System(state.View(), clients)) && at < |clients|
    modifies state.Repr()
    ensures old(state.View()).services[at].Some?
    ensures if old(service.srvstate) in {FREE, LISTENING, HIDDEN}
            then r == Failed(UnableToCloseService) && state.Valid() && state.View() == old(state.View())
            else
              match Sys.BeginClose(Sys.System(old(state.View()), clients), at)
              case Some(y) => r == Done && state.Valid() && state.View() == y.st
              case None => r == Panics
  {
    hide WriterOk;
    hide St.QueueMessage;
    hide St.FreeService;
    hide Sys.CloseMessage;
    state.InTable(service, at);
    hide St.SetService;
    hide St.Sized;
    BeginCloseIs(Sys.System(state.View(), clients), at);
    hide Sys.BeginClose;
    if service.srvstate in {FREE, LISTENING, HIDDEN} {
      return Failed(UnableToCloseService);
    }
    MarkClosing(state, service, at);
    if service.srvstate in {CLOSED, CLOSEWAIT} {
      Free(state, service, at);
      return Done;
    }
    if service.srvstate in {OPENING, OPENSYNC, ServiceState.OPEN} {
      r := QueueClose(state, service, at);
      return;
    }
    return Panics;
  }
}
