/**
 * The state of the ARM side as the code keeps it, updated in place: quota counters, table, slots and connection
 * (src/vchiq/state.rs, src/vchiq/slothandler.rs). Every method is proved against the function of module State or
 * System with its name.
 */
module StateObjects {
  import opened Config
  import opened SlotMessage
  import opened Slots
  import opened Transport
  import opened Service
  import Sys = System
  import Life = Lifecycle
  import opened SlotObjects
  import opened ServiceObjects

  class QuotaState {
    var previousDataIndex: int
    var dataUseCount: nat
    const dataQuota: nat
    const serviceQuotas: array<ServiceQuota>

    constructor (dataQuota: nat)
      ensures previousDataIndex == -1 && dataUseCount == 0 && this.dataQuota == dataQuota && fresh(serviceQuotas)
      ensures serviceQuotas[..] == seq(MAX_SERVICES, _ => ServiceQuota(0, 0, 0, 0, 0, 0))
    {
      previousDataIndex, dataUseCount := -1, 0;
      this.dataQuota := dataQuota;
      serviceQuotas := new ServiceQuota[MAX_SERVICES](_ => ServiceQuota(0, 0, 0, 0, 0, 0));
      new;
      assert serviceQuotas[..] == seq(MAX_SERVICES, _ => ServiceQuota(0, 0, 0, 0, 0, 0));
    }

    /** The part of add_service that maintains the quota of port `p`; a quota not used yet starts at slot `previous`. */
    method Enter(p: nat, slotQuota: nat, messageQuota: nat, previous: int)
      requires p < serviceQuotas.Length
      modifies serviceQuotas
      ensures var q := old(serviceQuotas[p]).(slotQuota := slotQuota, messageQuota := messageQuota);
              serviceQuotas[..] == old(serviceQuotas[..])[p := if q.slotUse == 0 then q.(previousTx := previous) else q]
    {
      var quota := serviceQuotas[p].(slotQuota := slotQuota, messageQuota := messageQuota);
      if quota.slotUse == 0 {
        quota := quota.(previousTx := previous);
      }
      serviceQuotas[p] := quota;
    }

    /** The counting half of queue_message, for a data message of port `p` that ends in slot `txEnd`. */
    method Count(p: nat, txEnd: int)
      requires p < serviceQuotas.Length
      modifies this`previousDataIndex, this`dataUseCount, serviceQuotas
      ensures previousDataIndex == txEnd
      ensures dataUseCount == old(dataUseCount) + (if txEnd != old(previousDataIndex) then 1 else 0)
      ensures serviceQuotas[..] == old(serviceQuotas[..])[p := St.CountSlot(old(serviceQuotas[p]), txEnd)]
    {
      if txEnd != previousDataIndex {
        previousDataIndex := txEnd;
        dataUseCount := dataUseCount + 1;
      }
      var q := serviceQuotas[p];
      if txEnd != q.previousTx {
        q := q.(previousTx := txEnd);
        q := q.(slotUse := q.slotUse + 1);
        serviceQuotas[p] := q;
      }
    }
  }

  datatype Outcome = Done | Failed(error: Error) | Blocks | Panics

  datatype Turn = Finished(callback: Option<nat>) | Unfinished

  class StateObject {
    const slotState: SlotState
    const quotaState: QuotaState
    const srvState: SrvState
    const defaultSlotQuota: nat
    const defaultMessageQuota: nat
    var connState: ConnectState
    var connect: nat                // count of the semaphore raised by a CONNECT
    var connected: bool             // of the instance
    var nextHandle: nat             // the counter all services share
    ghost var sent: seq<St.Sent>

    /** Over slots with nothing written yet. */
    constructor (slotState: SlotState)
      requires slotState.Valid()
      requires WriterOk(slotState.Out()) && slotState.localTxPos == 0
      ensures this.slotState == slotState && Valid() && Life.Initial(Sys.System(View(), []))
      ensures fresh(Repr() - {slotState, slotState.slotData.data})
    {
      this.slotState := slotState;
      quotaState := new QuotaState(slotState.available - 1);
      srvState := new SrvState();
      defaultSlotQuota := slotState.available / 2;
      defaultMessageQuota := slotState.available / 2 * 256;
      connState, connect, connected := DISCONNECTED, 0, false;
      nextHandle := MAX_SERVICES;
      sent := [];
      new;
      assert forall i | 0 <= i < MAX_SERVICES :: View().services[i].None?;
    }

    ghost function Repr(): set<object>
      reads srvState.services
    {
      {this, slotState, slotState.slotData.data, quotaState, quotaState.serviceQuotas,
       srvState, srvState.services} + srvState.Objects()
    }

    ghost predicate Valid()
      reads Repr()
      ensures Valid() ==> slotState.Valid() && srvState.Valid() && St.Sized(View())
    {
      && slotState.Valid() && srvState.Valid()
      && St.Sized(View())
    }

    ghost function View(): (st: St.State)
      requires slotState.Valid()
      reads Repr()
      ensures st.services == srvState.View() && st.unused == srvState.unusedService && st.nextHandle == nextHandle
    {
      St.State(slotState.writer, slotState.Out(), quotaState.previousDataIndex, quotaState.dataUseCount,
               quotaState.dataQuota, quotaState.serviceQuotas[..], srvState.View(), srvState.unusedService, nextHandle,
               defaultSlotQuota, defaultMessageQuota, connState, connect, connected, sent)
    }

    /** A service argument is null or the service in cell `at`. */
    ghost predicate At(service: ServiceObject?, at: nat)
      reads srvState.services
    {
      service != null ==> at < srvState.services.Length && srvState.services[at] == service
    }

    /** The quota loops of queue_message; nothing runs while they wait, so that waiting once is waiting for ever. */
    method Admit(service: ServiceObject, ghost at: nat, stride: nat) returns (r: Outcome)
      requires Valid() && At(service, at) && View().services[at] == Some(service.View())
      ensures match St.Admit(old(View()), old(View()).services[at].value, stride)
              case Queued(_) => r == Done
              case Refused(e) => r == Failed(e)
              case Blocked => r == Blocks
              case Panicked => false
    {
      if service.closing {
        return Failed(ServiceAlreadyClosed);
      }
      var quota := quotaState.serviceQuotas[service.localport];
      var txEndIndex := St.SlotIndex(slotState.localTxPos + stride - 1);
      if txEndIndex != quotaState.previousDataIndex && quotaState.dataUseCount == quotaState.dataQuota {
        return Blocks;
      }
      if quota.messageUse == quota.messageQuota
        || (txEndIndex != quota.previousTx && quota.slotUse == quota.slotQuota) {
        return Blocks;
      }
      return Done;
    }

    lemma InTable(service: ServiceObject?, at: nat)
      requires Valid() && At(service, at)
      ensures service != null ==> View().services[at] == Some(service.View()) && service in srvState.Objects()
      ensures service != null ==> service.localport < MAX_SERVICES
    {
      if service != null {
        assert srvState.View()[at] == srvState.ViewAt(at);
        assert View().services[at].Some?;
      }
    }

    /** What queue_message notes down about a stored message: counters, and the state of a service that closes. */
    method Note(service: ServiceObject?, ghost at: nat, m: Msg)
      requires Valid() && At(service, at) && slotState.localTxPos > 0
      requires MsgType(m.id) == Some(DATA) ==> service != null
      modifies Repr()
      ensures Repr() == old(Repr()) && Valid()
      ensures View() == St.Record(old(View()), if service == null then None else Some(at), m, old(View()).out)
    {
      hide WriterOk;
      hide St.CountSlot;
      hide St.SlotIndex;
      hide MsgType;
      InTable(service, at);
      var txEndIndex := St.SlotIndex(slotState.localTxPos - 1);
      if MsgType(m.id) == Some(DATA) {
        quotaState.Count(service.localport, txEndIndex);
      }
      sent := sent + [St.Sent(m, txEndIndex)];
      if service != null && MsgType(m.id) == Some(CLOSE) {
        service.SetState(CLOSESENT);
        srvState.OneChanged(at);
      } else {
        srvState.NoneChanged();
      }
    }

    /** The half of queue_message behind the quota loops: reserve, store, publish, and note it down. */
    method Transmit(service: ServiceObject?, ghost at: nat, m: Msg) returns (ok: bool)
      requires Valid() && At(service, at) && Stride(m) <= SLOT_SIZE
      requires MsgType(m.id) == Some(DATA) ==> service != null
      modifies Repr()
      ensures Repr() == old(Repr())
      ensures match St.Transmit(old(View()), if service == null then None else Some(at), m)
              case Queued(st) => ok && Valid() && View() == st
              case _ => !ok
    {
      hide Transport.Queue;
      hide WriterOk;
      hide MsgType;
      hide St.Record;
      InTable(service, at);
      QueueKeeps(View(), m);
      ok := slotState.Queue(m);
      if ok {
        srvState.NoneChanged();
        RecordIgnoresOut(old(View()), if service == null then None else Some(at), m, slotState.Out());
        Note(service, at, m);
      }
    }

    /** queue_message. */
    method QueueMessage(service: ServiceObject?, ghost at: nat, m: Msg) returns (r: Outcome)
      requires Valid() && At(service, at) && Stride(m) <= SLOT_SIZE
      modifies Repr()
      ensures Repr() == old(Repr())
      ensures match St.QueueMessage(old(View()), if service == null then None else Some(at), m)
              case Queued(st) => r == Done && Valid() && View() == st
              case Refused(e) => r == Failed(e) && Valid() && View() == old(View())
              case Blocked => r == Blocks && Valid() && View() == old(View())
              case Panicked => r == Panics
    {
      hide St.Transmit;
      hide St.Admit;
      hide WriterOk;
      InTable(service, at);
      if MsgType(m.id) == Some(DATA) {
        if service == null {
          return Failed(DataMessageWithoutService);
        }
        var admitted := Admit(service, at, CalcMsgStride(|m.data|));
        if admitted != Done {
          return admitted;
        }
      }
      var ok := Transmit(service, at, m);
      return if ok then Done else Panics;
    }

    /** The new service takes cell `i` of the table. */
    method Place(i: nat, service: ServiceObject)
      requires Valid() && i < MAX_SERVICES && service !in srvState.Objects() && service.remoteport <= PORT_FREE
      modifies srvState, srvState.services, service
      ensures Valid() && Repr() <= old(Repr()) + {service}
      ensures View() == St.SetService(old(View()), i, old(service.View()).(localport := i, state := OPENING))
                        .(unused := old(View()).unused + 1)
    {
      hide WriterOk;
      service.localport := i;
      service.SetState(OPENING);
      srvState.NoneChanged();
      srvState.Replace(i, service);
      srvState.unusedService := srvState.unusedService + 1;
    }

    /** The quota of port `i` starts from where the writer stands, if it has not been used yet. */
    method StartQuota(i: nat)
      requires Valid() && i < MAX_SERVICES
      modifies quotaState.serviceQuotas
      ensures Valid() && Repr() == old(Repr())
      ensures View() == old(View()).(quotas := St.StartQuota(old(View()), i))
    {
      hide WriterOk;
      hide St.SlotIndex;
      quotaState.Enter(i, defaultSlotQuota, defaultMessageQuota, St.SlotIndex(slotState.localTxPos) - 1);
      srvState.NoneChanged();
    }

    /** The new service takes cell `i` of the table, and its quota starts from where the writer stands. */
    method Enter(i: nat, service: ServiceObject)
      requires Valid() && i < MAX_SERVICES && service !in srvState.Objects() && service.remoteport <= PORT_FREE
      modifies srvState, srvState.services, quotaState.serviceQuotas, service
      ensures Valid() && Repr() <= old(Repr()) + {service}
      ensures View() == St.Enter(old(View()), i, old(service.View()).(localport := i, state := OPENING))
    {
      hide WriterOk;
      hide St.SlotIndex;
      Place(i, service);
      StartQuota(i);
    }

    /** Service::new, which takes the next handle; the object is not in the table yet. */
    method NewServiceObject() returns (service: ServiceObject)
      requires Valid()
      modifies this`nextHandle
      ensures fresh(service) && service !in srvState.Objects() && service.View() == NewService(old(nextHandle))
      ensures Valid() && View() == old(View()).(nextHandle := old(nextHandle) + 1) && Repr() == old(Repr())
    {
      hide WriterOk;
      service := new ServiceObject(nextHandle);
      nextHandle := nextHandle + 1;
      srvState.NoneChanged();
    }

    /** A CLOSE for the service in cell `at`. */
    method HandleClose(service: ServiceObject, ghost at: nat)
      requires Valid() && At(service, at)
      modifies quotaState.serviceQuotas, service
      ensures var st, s := old(View()), old(service.View());
              && s.localport < MAX_SERVICES
              && var q := st.quotas[s.localport];
                 View() == St.SetService(st.(quotas := st.quotas[s.localport := q.(quotaEvent := q.quotaEvent + 1)]),
                                         at, St.OnClose(s.(closing := true)))
    {
      hide WriterOk;
      hide St.OnClose;
      InTable(service, at);
      service.closing := true;
      var quota := quotaState.serviceQuotas[service.localport];
      quotaState.serviceQuotas[service.localport] := quota.(quotaEvent := quota.quotaEvent + 1);
      service.CloseReceived();
      srvState.OneChanged(at);
    }

    /** An OPENACK for the service in cell `at`. */
    method HandleOpenAck(service: ServiceObject, ghost at: nat, remotePort: nat, data: seq<byte>)
      requires Valid() && At(service, at) && remotePort <= PORT_FREE
      modifies service
      ensures Valid() && at < MAX_SERVICES
      ensures View() == St.SetService(old(View()), at, St.OnOpenAck(old(service.View()), remotePort, data))
    {
      hide WriterOk;
      InTable(service, at);
      service.OpenAcked(remotePort, data);
      srvState.OneChanged(at);
    }

    /** The dispatch of one message by the slot handler. */
    method HandleMessage(m: Msg) returns (r: Turn)
      requires Valid()
      modifies this`connect, quotaState.serviceQuotas, srvState.Objects()
      ensures match St.Dispatch(old(View()), m)
              case Unimplemented => r == Unfinished
              case Dispatched(st, callback) => r == Finished(callback) && Valid() && View() == st
    {
      hide WriterOk;
      hide MsgType;
      hide St.OnOpenAck;
      hide St.OnClose;
      var msgType := MsgType(m.id);
      var localPort, remotePort := DstPort(m.id), SrcPort(m.id);
      var service: ServiceObject? := null;
      if msgType in {Some(CLOSE), Some(OPENACK), Some(DATA), Some(BULK_RX_DONE), Some(BULK_TX_DONE)} {
        service := srvState.ByPort(localPort);
        if service == null {
          return Unfinished;
        }
        assert service in srvState.Objects();
      }
      match msgType {
        case Some(CLOSE) =>
          if service.remoteport != remotePort && service.remoteport != PORT_FREE && localPort == 0 {
            return Unfinished;
          }
          HandleClose(service, localPort);
          return Finished(None);
        case Some(OPENACK) =>
          HandleOpenAck(service, localPort, remotePort, m.data);
          return Finished(None);
        case Some(DATA) =>
          return Finished(if service.remoteport == remotePort && service.srvstate == ServiceState.OPEN
                          then Some(service.handle) else None);
        case Some(BULK_RX_DONE) => return Finished(None);
        case Some(BULK_TX_DONE) => return Finished(None);
        case Some(CONNECT) =>
          connect := connect + 1;
          return Finished(None);
        case Some(PADDING) => return Finished(None);
        case _ => return Unfinished;
      }
    }

    /** The body of the parse loop: read, dispatch, advance. */
    method HandleNext() returns (m: Msg, r: Turn)
      requires Valid() && slotState.rxPos < slotState.remoteTxPos
      modifies this`connect, quotaState.serviceQuotas, srvState.Objects(), slotState`rxPos, slotState`rxData
      ensures var next := old(NextMessage());
              if next.None? then r == Unfinished
              else
                var d := St.Dispatch(old(View()), next.value.1);
                if d.Unimplemented? then r == Unfinished
                else
                  && r == Finished(d.callback) && m == next.value.1 && Valid() && View() == d.st
                  && slotState.In() == next.value.0
    {
      hide WriterOk;
      hide St.Sized;
      hide St.Dispatch;
      hide Slots.ReadMessage;
      ghost var st0 := View();
      var next := slotState.ReadNext(slotState.remoteTxPos);
      if next.None? {
        m := Msg(0, []);
        return m, Unfinished;
      }
      m := next.value;
      r := HandleMessage(m);
      slotState.Advance(|m.data|);
      DispatchKeepsOut(st0, m);
    }

    /** What one turn of the parse loop reads, and where it leaves the reader. */
    ghost function NextMessage(): Option<(Reader, Msg)>
      requires slotState.Valid()
      reads slotState, slotState.slotData.data
    {
      ParseOne(slotState.lookup, slotState.slotData.Contents(), slotState.remoteSlotQueue, slotState.In(),
               slotState.remoteTxPos)
    }

    /**
     * One poll of the slot handler: parse up to the position published, dispatching every message. `calls` lists the
     * callbacks made. `ok` is false where a message meets a todo!(), where it cannot be read, and where the loop is
     * past the published position, so that its test `!=` would hold for ever.
     */
    method SlotHandler() returns (ok: bool, calls: seq<Call>)
      requires Valid()
      modifies this`connect, quotaState.serviceQuotas, srvState.Objects(), slotState`rxPos, slotState`rxData
      ensures var r := Handled(old(Incoming()), old(View()));
              if r.None? then !ok
              else ok && Valid() && slotState.In() == r.value.0 && View() == r.value.1 && calls == r.value.2
    {
      hide WriterOk;
      hide St.Sized;
      hide Handled;
      ghost var want := Handled(Incoming(), View());
      ok, calls := true, [];
      NothingBefore(want);
      while slotState.rxPos != slotState.remoteTxPos
        invariant Valid() && want == Before(calls, Handled(Incoming(), View()))
        decreases slotState.remoteTxPos - slotState.rxPos
      {
        if slotState.rxPos > slotState.remoteTxPos {
          PastTheEnd(slotState.lookup, slotState.slotData.Contents(), slotState.remoteSlotQueue, slotState.In(),
                     slotState.remoteTxPos, View());
          return false, calls;
        }
        ok, calls := HandleOneMore(calls);
        if !ok {
          return;
        }
      }
      BeforeNothing(calls, slotState.In(), View());
    }

    /** One turn of the parse loop, which adds to `calls` the callback it makes. */
    method HandleOneMore(calls: seq<Call>) returns (ok: bool, more: seq<Call>)
      requires Valid() && slotState.rxPos < slotState.remoteTxPos
      modifies this`connect, quotaState.serviceQuotas, srvState.Objects(), slotState`rxPos, slotState`rxData
      ensures var want := old(Before(calls, Handled(Incoming(), View())));
              if ok then Valid() && want == Before(more, Handled(Incoming(), View())) else want == None
      ensures ok ==> old(slotState.rxPos) < slotState.rxPos
    {
      hide WriterOk;
      hide St.Sized;
      hide St.Dispatch;
      hide Handled;
      OneTurn(slotState.lookup, slotState.slotData.Contents(), slotState.remoteSlotQueue, slotState.In(),
              slotState.remoteTxPos, View());
      var m, r := HandleNext();
      if r.Unfinished? {
        return false, calls;
      }
      BeforeOne(calls, m, r.callback, Handled(Incoming(), View()));
      return true, if r.callback.Some? then calls + [Call(r.callback.value, m)] else calls;
    }

    /** What the parse loop finds in the incoming slots. */
    ghost function Incoming(): Option<(Reader, seq<Msg>)>
      requires slotState.Valid()
      reads slotState, slotState.slotData.data
    {
      Parse(slotState.lookup, slotState.slotData.Contents(), slotState.remoteSlotQueue, slotState.In(),
            slotState.remoteTxPos)
    }
  }

  /** A callback made: the handle of its service, and the message. */
  datatype Call = Call(handle: nat, m: Msg)

  /** The messages dispatched one after the other. */
  function HandleMessages(st: St.State, ms: seq<Msg>): Option<(St.State, seq<Call>)>
    requires St.Sized(st)
    decreases |ms|
  {
    if ms == [] then Some((st, []))
    else
      match St.Dispatch(st, ms[0])
      case Unimplemented => None
      case Dispatched(st1, callback) => After(Calls(callback, ms[0]), HandleMessages(st1, ms[1..]))
  }

  function Calls(callback: Option<nat>, m: Msg): seq<Call> {
    if callback.Some? then [Call(callback.value, m)] else []
  }

  function After(calls: seq<Call>, r: Option<(St.State, seq<Call>)>): Option<(St.State, seq<Call>)> {
    if r.None? then None else Some((r.value.0, calls + r.value.1))
  }

  /** What a poll of the slot handler makes of what the parse loop finds: the reader, the state, and the callbacks. */
  function Handled(found: Option<(Reader, seq<Msg>)>, st: St.State): Option<(Reader, St.State, seq<Call>)>
    requires St.Sized(st)
  {
    match found
    case None => None
    case Some((reader, ms)) =>
      match HandleMessages(st, ms)
      case None => None
      case Some((st1, calls)) => Some((reader, st1, calls))
  }

  function Before(calls: seq<Call>, r: Option<(Reader, St.State, seq<Call>)>): Option<(Reader, St.State, seq<Call>)> {
    if r.None? then None else Some((r.value.0, r.value.1, calls + r.value.2))
  }

  lemma NothingBefore(r: Option<(Reader, St.State, seq<Call>)>)
    ensures Before([], r) == r
  {
    if r.Some? {
      assert [] + r.value.2 == r.value.2;
    }
  }

  lemma BeforeOne(calls: seq<Call>, m: Msg, callback: Option<nat>, r: Option<(Reader, St.State, seq<Call>)>)
    ensures Before(calls, Before(Calls(callback, m), r))
            == Before(if callback.Some? then calls + [Call(callback.value, m)] else calls, r)
  {
    if r.Some? {
      assert calls + (Calls(callback, m) + r.value.2) == calls + Calls(callback, m) + r.value.2;
      assert calls + [] == calls;
    }
  }

  lemma BeforeNothing(calls: seq<Call>, reader: Reader, st: St.State)
    requires St.Sized(st)
    ensures Before(calls, Handled(Some((reader, [])), st)) == Some((reader, st, calls))
  {
    assert calls + [] == calls;
  }

  /** A reader past the published position never comes to it. */
  lemma PastTheEnd(v: Variant, mem: Memory, queue: SlotQueue, r: Reader, txPos: nat, st: St.State)
    requires St.Sized(st) && r.rxPos > txPos
    ensures Handled(Parse(v, mem, queue, r, txPos), st) == None
  {
  }

  /** One turn of the loop does the first part of what the whole loop does. */
  lemma OneTurn(v: Variant, mem: Memory, queue: SlotQueue, r: Reader, txPos: nat, st: St.State)
    requires St.Sized(st) && r.rxPos < txPos
    ensures var all := Handled(Parse(v, mem, queue, r, txPos), st);
            var one := ParseOne(v, mem, queue, r, txPos);
            if one.None? then all == None
            else
              var d := St.Dispatch(st, one.value.1);
              if d.Unimplemented? then all == None
              else
                var rest := Handled(Parse(v, mem, queue, one.value.0, txPos), d.st);
                all == Before(Calls(d.callback, one.value.1), rest)
  {
    hide ParseOne;
    hide St.Dispatch;
    hide WriterOk;
    var one := ParseOne(v, mem, queue, r, txPos);
    if one.Some? {
      var rest := Parse(v, mem, queue, one.value.0, txPos);
      if rest.Some? {
        assert ([one.value.1] + rest.value.1)[1..] == rest.value.1;
      }
    }
  }

  lemma DispatchKeepsOut(st: St.State, m: Msg)
    requires St.Sized(st)
    ensures St.Dispatch(st, m).Dispatched? ==> St.Dispatch(st, m).st.out == st.out
  {
    hide WriterOk;
  }

  lemma RecordIgnoresOut(st: St.State, svc: Option<nat>, m: Msg, out: Side)
    requires St.Sized(st) && St.Known(st, svc) && WriterOk(out) && 0 < out.localTxPos
    requires MsgType(m.id) == Some(DATA) ==> svc.Some?
    ensures St.Sized(st.(out := out)) && St.Record(st.(out := out), svc, m, out) == St.Record(st, svc, m, out)
  {
    hide WriterOk;
    hide MsgType;
  }

  lemma QueueKeeps(st: St.State, m: Msg)
    requires St.Sized(st) && Stride(m) <= SLOT_SIZE
    ensures Transport.Queue(st.writer, st.out, m).Some? ==>
              var out := Transport.Queue(st.writer, st.out, m).value; WriterOk(out) && 0 < out.localTxPos
  {
    if Transport.Queue(st.writer, st.out, m).Some? {
      QueueKeepsWriterOk(st.writer, st.out, m);
    }
  }
}
