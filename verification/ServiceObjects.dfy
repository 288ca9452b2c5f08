/**
 * Services and their table as the code keeps them, updated in place (src/vchiq/service.rs, the service functions of
 * src/vchiq/state.rs).
 */
module ServiceObjects {
  import opened Config
  import opened SlotMessage
  import opened Service
  import St = State

  class ServiceObject {
    const handle: nat
    var srvstate: ServiceState
    var localport: nat
    var remoteport: nat
    var closing: bool
    var removeEvent: nat
    var peerVersion: nat

    constructor (handle: nat)
      ensures View() == NewService(handle)
    {
      this.handle := handle;
      srvstate, localport, remoteport := FREE, PORT_FREE, PORT_FREE;
      closing, removeEvent, peerVersion := false, 0, 0;
    }

    function View(): Service
      reads this
    {
      Service(handle, srvstate, localport, remoteport, closing, removeEvent, peerVersion)
    }

    method SetState(newState: ServiceState)
      modifies this`srvstate
      ensures View() == old(View()).(state := newState)
    {
      srvstate := newState;
    }

    /** free_service. */
    method Free()
      modifies this
      ensures View() == St.FreeService(old(View()))
    {
      if srvstate !in {OPENING, CLOSED, HIDDEN, LISTENING, CLOSEWAIT} {
        return;
      }
      SetState(FREE);
      removeEvent := removeEvent + 1;
    }

    /** close_service_complete. */
    method CloseComplete()
      modifies this
      ensures View() == St.CloseServiceComplete(old(View()))
    {
      match srvstate {
        case OPEN => SetState(CLOSED);
        case CLOSESENT => SetState(CLOSED);
        case CLOSERECVD => SetState(CLOSED);
        case LISTENING =>
        case _ => return;
      }
      remoteport := PORT_FREE;
      if srvstate == CLOSED {
        Free();
      } else if srvstate != CLOSEWAIT {
        removeEvent := removeEvent + 1;
      }
    }

    /** An OPENACK has arrived. */
    method OpenAcked(remotePort: nat, data: seq<byte>)
      modifies this
      ensures View() == St.OnOpenAck(old(View()), remotePort, data)
    {
      if |data| >= 2 {
        peerVersion := data[0] as nat + 0x100 * data[1] as nat;
      }
      if srvstate == OPENING {
        remoteport := remotePort;
        SetState(ServiceState.OPEN);
        removeEvent := removeEvent + 1;
      }
    }

    /** A CLOSE has arrived, after the service has been marked as closing. */
    method CloseReceived()
      modifies this
      ensures View() == St.OnClose(old(View()))
    {
      if srvstate == OPENING {
        SetState(CLOSEWAIT);
        removeEvent := removeEvent + 1;
      } else if srvstate == CLOSESENT {
        CloseComplete();
      }
    }

    /** The part of the waits for an open or a close that tries the event; the state it saw, if it was raised. */
    method TryRemoveEvent() returns (seen: Option<ServiceState>)
      modifies this`removeEvent
      ensures if old(removeEvent) == 0 then seen == None && View() == old(View())
              else seen == Some(srvstate) && View() == old(View()).(removeEvent := old(removeEvent) - 1)
    {
      if removeEvent == 0 {
        return None;
      }
      removeEvent := removeEvent - 1;
      return Some(srvstate);
    }
  }

  /** SrvState: the table of services, each an object of its own. */
  class SrvState {
    const services: array<ServiceObject?>
    var unusedService: nat

    constructor ()
      ensures Valid() && fresh(services)
      ensures View() == seq(MAX_SERVICES, _ => None) && Objects() == {} && unusedService == 0
    {
      services := new ServiceObject?[MAX_SERVICES](_ => null);
      unusedService := 0;
      new;
      assert forall i | 0 <= i < MAX_SERVICES :: ViewAt(i) == None;
    }

    ghost predicate Valid()
      reads this, services
    {
      && services.Length == MAX_SERVICES
      && forall i, j | 0 <= i < j < MAX_SERVICES && services[i] != null :: services[i] != services[j]
    }

    ghost function Objects(): set<ServiceObject?>
      reads services
    {
      set i | 0 <= i < services.Length && services[i] != null :: services[i]
    }

    ghost function ViewAt(i: nat): Option<Service>
      requires i < services.Length
      reads services, Objects()
    {
      if services[i] == null then None else Some(services[i].View())
    }

    ghost function View(): (r: seq<Option<Service>>)
      reads services, Objects()
      ensures |r| == services.Length
      ensures forall i | 0 <= i < |r| :: r[i] == ViewAt(i)
    {
      seq(services.Length, i requires 0 <= i < services.Length reads services, Objects() => ViewAt(i))
    }

    /** Only the service in cell `i` has changed. */
    twostate lemma OneChanged(i: nat)
      requires Valid() && i < MAX_SERVICES && services[i] != null
      requires unchanged(services) && forall o | o in Objects() && o != services[i] :: unchanged(o)
      ensures View() == old(View())[i := Some(services[i].View())]
    {
      forall k | 0 <= k < MAX_SERVICES && k != i ensures ViewAt(k) == old(ViewAt(k)) {
        if services[k] != null {
          assert services[k] in Objects() && services[k] != services[i];
        }
      }
    }

    /** Nothing in the table has changed. */
    twostate lemma NoneChanged()
      requires unchanged(services) && forall o | o in Objects() :: unchanged(o)
      ensures View() == old(View())
    {
      forall k | 0 <= k < services.Length ensures ViewAt(k) == old(ViewAt(k)) {
        if services[k] != null {
          assert services[k] in Objects();
        }
      }
    }

    method ByPort(localPort: nat) returns (service: ServiceObject?)
      requires Valid() && localPort < MAX_SERVICES
      ensures if View()[localPort].Some? && View()[localPort].value.state != FREE
              then service == services[localPort] && service != null && View()[localPort] == Some(service.View())
              else service == null
    {
      assert View()[localPort] == ViewAt(localPort);
      service := services[localPort];
      if service != null && service.srvstate == FREE {
        return null;
      }
    }

    method FromHandle(srvHandle: nat) returns (r: Option<nat>)
      requires Valid()
      ensures r == St.FindHandle(View(), srvHandle, 0)
    {
      ghost var view := View();
      for i := 0 to MAX_SERVICES
        invariant St.FindHandle(view, srvHandle, 0) == St.FindHandle(view, srvHandle, i)
      {
        assert view[i] == ViewAt(i);
        if services[i] != null && services[i].handle == srvHandle {
          return Some(i);
        }
      }
      return None;
    }

    /** The search of add_service. */
    method FreeEntry() returns (r: Option<nat>)
      requires Valid() && unusedService <= MAX_SERVICES
      ensures r == St.FreeEntry(View(), unusedService)
    {
      ghost var view := View();
      for i := 0 to unusedService
        invariant St.FirstNone(view, 0, unusedService) == St.FirstNone(view, i, unusedService)
      {
        assert view[i] == ViewAt(i);
        if services[i] == null {
          return Some(i);
        }
      }
      return if unusedService < MAX_SERVICES then Some(unusedService) else None;
    }

    /** A new service takes cell `i`. */
    method Replace(i: nat, service: ServiceObject)
      requires Valid() && i < MAX_SERVICES && service !in Objects()
      modifies services
      ensures Valid() && View() == old(View())[i := Some(service.View())]
      ensures services[i] == service && Objects() <= old(Objects()) + {service}
    {
      services[i] := service;
      assert forall k | 0 <= k < MAX_SERVICES && k != i ::
          old(services[k]) != null ==> old(services[k]) in old(Objects());
      assert forall k | 0 <= k < MAX_SERVICES && k != i :: ViewAt(k) == old(ViewAt(k));
    }
  }
}
