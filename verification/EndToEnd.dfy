/**
 * The whole host: a peer fills the incoming slots, the slot handler parses them and dispatches every message, callbacks
 * fill the rings, and clients take from them, in any interleaving.
 */
module EndToEnd {
  import opened Config
  import opened SlotMessage
  import opened Transport
  import RT = RoundTrip
  import opened Service
  import opened State
  import Sys = System
  import Life = Lifecycle
  import Rings
  import N = Worlds
  import M = MessageRings
  import Objects = StateObjects

  /** A frame the slot handler has dispatched, and the service table it met. */
  datatype Seen = Seen(m: Msg, services: seq<Option<Service>>)

  datatype Host = Host(
    y: Sys.System,
    w: N.World,
    chan: RT.Channel,
    log: seq<Seen>,                 // history: every frame dispatched
    overrun: bool)                  // history: some callback has met a full message ring

  datatype Op =
    | PeerWrite(m: Msg)             // the peer queues a message into the incoming slots
    | PollSlots                     // one poll of the slot handler
    | Client(op: Sys.Op)            // one poll of connect, create, close or send; new services are vchi
    | CreateOther(open: seq<byte>)  // create_service of a service that is not vchi
    | Take(i: nat)                  // one poll of dequeue_message
    | Collect(count: nat)           // one poll of await_completion

  predicate Aligned(h: Host)
    ensures Aligned(h) ==> N.Shaped(h.w) && Life.LifeOk(h.y)
  {
    && Life.LifeOk(h.y) && N.Shaped(h.w) && |h.w.users| == h.y.st.unused
    && WriterOk(h.chan.side)
  }

  /** The callback of the service with handle `handle`, called with message `m`. */
  function CallBack(h: Host, handle: nat, m: Msg): Host
    requires Aligned(h)
  {
    match ServiceFromHandle(h.y.st, handle)
    case None => h
    case Some(i) =>
      if i < |h.w.users|
      then h.(w := N.DeliverStep(h.w, i, m), overrun := h.overrun || M.Pending(h.w, i) >= MSG_QUEUE_SIZE)
      else h
  }

  function HandleOne(h: Host, m: Msg): (r: Option<Host>)
    requires Aligned(h)
    ensures r.Some? ==> Aligned(r.value) && r.value.chan == h.chan
  {
    match Dispatch(h.y.st, m)
    case Unimplemented => None
    case Dispatched(st, callback) =>
      HandledStaysAligned(h, m);
      var h1 := h.(y := h.y.(st := st), log := h.log + [Seen(m, h.y.st.services)]);
      Some(match callback
           case None => h1
           case Some(handle) => CallBack(h1, handle, m))
  }

  lemma HandledStaysAligned(h: Host, m: Msg)
    requires Aligned(h) && Dispatch(h.y.st, m).Dispatched?
    ensures var h1 := h.(y := h.y.(st := Dispatch(h.y.st, m).st), log := h.log + [Seen(m, h.y.st.services)]);
            && Aligned(h1)
            && forall handle :: Aligned(CallBack(h1, handle, m)) && CallBack(h1, handle, m).chan == h.chan
  {
    var r := Sys.ReceiveStep(h.y, m);
    Life.ReceiveKeepsLife(h.y, m);
    assert r.value.st.unused == h.y.st.unused by { UnusedStays(h.y.st, m); }
    hide Life.LifeOk;
    var h1 := h.(y := r.value, log := h.log + [Seen(m, h.y.st.services)]);
    forall handle: nat
      ensures Aligned(CallBack(h1, handle, m)) && CallBack(h1, handle, m).chan == h.chan
    {
      var found := ServiceFromHandle(h1.y.st, handle);
      if found.Some? && found.value < |h1.w.users| {
        N.CallbackKeepsOwner(h1.w.users[found.value], h1.w.c, m);
      }
    }
  }

  lemma UnusedStays(st: State, m: Msg)
    requires Sized(st) && Dispatch(st, m).Dispatched?
    ensures Dispatch(st, m).st.unused == st.unused
  {
  }

  function HandleAll(h: Host, ms: seq<Msg>): (r: Option<Host>)
    requires Aligned(h)
    ensures r.Some? ==> Aligned(r.value) && r.value.chan == h.chan
    decreases |ms|
  {
    if ms == [] then Some(h)
    else
      match HandleOne(h, ms[0])
      case None => None
      case Some(h1) => HandleAll(h1, ms[1..])
  }

  /** slot_handler: parse up to the published position, dispatching every message. */
  function PollStep(h: Host): (r: Option<Host>)
    requires Aligned(h)
    ensures r.Some? ==> Aligned(r.value)
  {
    match Parse(h.chan.lookup, h.chan.side.mem, h.chan.side.queue, h.chan.reader, h.chan.side.txPos)
    case None => None
    case Some((reader, ms)) => HandleAll(h.(chan := h.chan.(reader := reader, parsed := h.chan.parsed + ms)), ms)
  }

  /** A client's call; a service that has been added gets its rings. */
  function ClientStep(h: Host, op: Sys.Op, isVchi: bool): (r: Option<Host>)
    requires Aligned(h) && Sys.Fits(op)
    ensures r.Some? ==> Aligned(r.value)
  {
    if op.Receive? then None
    else
      match Sys.Step(h.y, op)
      case None => None
      case Some(y) =>
        Life.StepKeepsLife(h.y, op);
        if y.st.unused == h.y.st.unused then Some(h.(y := y))
        else if y.st.unused == h.y.st.unused + 1 then Some(h.(y := y, w := N.Step(h.w, N.AddUser(isVchi)).value))
        else None
  }

  predicate Fits(op: Op) {
    && (op.PeerWrite? ==> Stride(op.m) <= SLOT_SIZE)
    && (op.Client? ==> Sys.Fits(op.op))
    && (op.CreateOther? ==> Sys.Fits(Sys.Create(op.open)))
  }

  function Step(h: Host, op: Op): (r: Option<Host>)
    requires Aligned(h) && Fits(op)
    ensures r.Some? ==> Aligned(r.value)
  {
    match op
    case PeerWrite(m) =>
      (match RT.Step(h.chan, RT.Write(m))
       case None => None
       case Some(chan) => Some(h.(chan := chan)))
    case PollSlots => PollStep(h)
    case Client(op) => ClientStep(h, op, true)
    case CreateOther(open) => ClientStep(h, Sys.Create(open), false)
    case Take(i) => RingStep(h, N.Take(i))
    case Collect(count) =>
      if h.y.st.connected then RingStep(h, N.Collect(count)) else Some(h)     // NotConnected
  }

  function RingStep(h: Host, op: N.Op): (r: Option<Host>)
    requires Aligned(h) && (op.Take? || op.Collect?)
    ensures r.Some? ==> Aligned(r.value)
  {
    match N.Step(h.w, op)
    case None => None
    case Some(w) => Some(h.(w := w))
  }

  function Run(h: Host, ops: seq<Op>): (r: Option<Host>)
    requires Aligned(h) && forall op | op in ops :: Fits(op)
    ensures r.Some? ==> Aligned(r.value)
    decreases |ops|
  {
    if ops == [] then Some(h)
    else
      match Step(h, ops[0])
      case None => None
      case Some(h1) => Run(h1, ops[1..])
  }

  // ----- what each service should receive -----

  /** A frame is for service `i` if it is a data frame for its port, from its remote port, while it is open. */
  predicate IsFor(s: Seen, i: nat) {
    && MsgType(s.m.id) == Some(DATA) && DstPort(s.m.id) == i
    && i < |s.services| && s.services[i].Some?
    && s.services[i].value.state == ServiceState.OPEN && s.services[i].value.remoteport == SrcPort(s.m.id)
  }

  function MessagesFor(log: seq<Seen>, i: nat): seq<Msg> {
    if log == [] then []
    else MessagesFor(log[..|log| - 1], i) + (if IsFor(log[|log| - 1], i) then [log[|log| - 1].m] else [])
  }

  function LoggedFrames(log: seq<Seen>): seq<Msg> {
    seq(|log|, k requires 0 <= k < |log| => log[k].m)
  }

  /** Every service's ring has been handed exactly its messages. */
  ghost predicate Matched(h: Host)
    ensures Matched(h) ==> Aligned(h)
  {
    && Aligned(h)
    && (!h.overrun ==> M.AllInOrder(h.w))
    && (forall i: nat | i < |h.w.users| :: h.w.accepted[i] == MessagesFor(h.log, i))
    && (forall i: nat | i >= |h.w.users| :: MessagesFor(h.log, i) == [])
  }

  // ----- dispatching one frame -----

  /** The callback called is that of the service the frame is for. */
  lemma CallbackIsForService(st: State, m: Msg)
    requires Life.TableOk(st) && Dispatch(st, m).Dispatched?
    ensures var i, seen := DstPort(m.id), Seen(m, st.services);
            if IsFor(seen, i)
            then i < st.unused && Dispatch(st, m) == Dispatched(st, Some(st.services[i].value.handle))
            else Dispatch(st, m).callback == None
    ensures forall i: nat | i != DstPort(m.id) :: !IsFor(Seen(m, st.services), i)
  {
    hide WriterOk;
  }

  lemma MessagesOneMore(log: seq<Seen>, x: Seen, i: nat)
    ensures MessagesFor(log + [x], i) == MessagesFor(log, i) + (if IsFor(x, i) then [x.m] else [])
  {
    hide IsFor;
    assert (log + [x])[..|log|] == log;
  }

  lemma DeliveredMatches(h: Host, i: nat, m: Msg)
    requires Matched(h) && i < |h.w.users|
    requires N.Shaped(N.DeliverStep(h.w, i, m))
    ensures var w := N.DeliverStep(h.w, i, m);
            && w.accepted == h.w.accepted[i := h.w.accepted[i] + [m]] && |w.users| == |h.w.users|
            && (!h.overrun && M.Pending(h.w, i) < MSG_QUEUE_SIZE ==> M.AllInOrder(w))
  {
    hide Aligned;
    hide Rings.Callback;
    if !h.overrun && M.Pending(h.w, i) < MSG_QUEUE_SIZE {
      M.StepKeepsOrder(h.w, N.Deliver(i, m));
    }
  }

  /** Logging a frame matches handing it to the service it is for, if there is one. */
  lemma LoggingMatches(h: Host, h1: Host, x: Seen, i: nat)
    requires Matched(h) && Aligned(h1) && (!h1.overrun ==> M.AllInOrder(h1.w))
    requires h1.log == h.log + [x] && |h1.w.users| == |h.w.users|
    requires forall j: nat | j != i :: !IsFor(x, j)
    requires if IsFor(x, i) then i < |h.w.users| && h1.w.accepted == h.w.accepted[i := h.w.accepted[i] + [x.m]]
             else h1.w.accepted == h.w.accepted
    ensures Matched(h1)
  {
    assert N.Shaped(h.w) && N.Shaped(h1.w);
    hide IsFor;
    hide MessagesFor;
    hide M.AllInOrder;
    hide Aligned;
    forall j: nat
      ensures MessagesFor(h1.log, j) == MessagesFor(h.log, j) + (if IsFor(x, j) then [x.m] else [])
    {
      MessagesOneMore(h.log, x, j);
    }
  }

  lemma HandleOneMatches(h: Host, m: Msg)
    requires Matched(h) && HandleOne(h, m).Some?
    ensures var h1 := HandleOne(h, m).value;
            && Matched(h1) && h1.log == h.log + [Seen(m, h.y.st.services)] && |h1.w.users| == |h.w.users|
            && (h.overrun ==> h1.overrun)
  {
    var i, x := DstPort(m.id), Seen(m, h.y.st.services);
    var h1 := HandleOne(h, m).value;
    CallbackIsForService(h.y.st, m);
    HandledStaysAligned(h, m);
    if IsFor(x, i) {
      Life.HandleFinds(h.y.st, i);
      assert |h.w.users| == h.y.st.unused;
      hide Matched;
      hide Aligned;
      hide Dispatch;
      hide IsFor;
      hide N.DeliverStep;
        hide M.AllInOrder;
      DeliveredMatches(h, i, m);
      assert h1.w == N.DeliverStep(h.w, i, m);
    }
    LoggingMatches(h, h1, x, i);
  }

  lemma LoggedOneMore(log: seq<Seen>, x: Seen)
    ensures LoggedFrames(log + [x]) == LoggedFrames(log) + [x.m]
  {
  }

  lemma {:induction false} HandleAllMatches(h: Host, ms: seq<Msg>)
    requires Matched(h) && HandleAll(h, ms).Some?
    ensures var h1 := HandleAll(h, ms).value;
            && Matched(h1) && LoggedFrames(h1.log) == LoggedFrames(h.log) + ms && |h1.w.users| == |h.w.users|
            && (h.overrun ==> h1.overrun)
    decreases |ms|
  {
    hide HandleOne;
    hide Matched;
    hide Aligned;
    hide LoggedFrames;
    if ms == [] {
      assert LoggedFrames(h.log) + [] == LoggedFrames(h.log);
    } else {
      HandleOneMatches(h, ms[0]);
      var h1 := HandleOne(h, ms[0]).value;
      LoggedOneMore(h.log, Seen(ms[0], h.y.st.services));
      HandleAllMatches(h1, ms[1..]);
      assert LoggedFrames(h.log) + [ms[0]] + ms[1..] == LoggedFrames(h.log) + ms;
    }
  }

  // ----- every step -----

  /** Rings, table and slots agree: what was dispatched is what was parsed, and `rest` is what lies unparsed. */
  ghost predicate Linked(h: Host, sent: seq<Msg>, rest: seq<Msg>)
    ensures Linked(h, sent, rest) ==> Aligned(h)
  {
    Matched(h) && RT.InStep(h.chan, sent, rest) && LoggedFrames(h.log) == h.chan.parsed
  }

  /** The queued messages of one operation of the peer. */
  function WrittenBy(op: Op): seq<Msg> {
    if op.PeerWrite? then [op.m] else []
  }

  function Written(ops: seq<Op>): seq<Msg> {
    if ops == [] then [] else WrittenBy(ops[0]) + Written(ops[1..])
  }

  /** Nothing but the reader's progress depends on the channel. */
  lemma ChannelIsSeparate(h: Host, chan: RT.Channel)
    requires Matched(h) && WriterOk(chan.side)
    ensures Matched(h.(chan := chan))
  {
  }

  /** Where the code is taken as written: padding goes wrong nowhere, and no slot entered is already full. */
  predicate Safe(h: Host, op: Op) {
    match op
    case PeerWrite(m) => RT.Safe(h.chan, RT.Write(m))
    case PollSlots => RT.Safe(h.chan, RT.Poll)
    case _ => true
  }

  lemma PollStepLinks(h: Host, sent: seq<Msg>, rest: seq<Msg>)
    requires Linked(h, sent, rest) && Safe(h, PollSlots) && PollStep(h).Some?
    ensures var h1 := PollStep(h).value;
            Linked(h1, sent, []) && |h1.w.users| == |h.w.users| && (h.overrun ==> h1.overrun)
  {
    hide Matched;
    hide Aligned;
    hide LoggedFrames;
    hide HandleAll;
    hide RT.InStep;
    hide Parse;
    hide WriterOk;
    RT.PollKeepsInStep(h.chan, sent, rest);
    var chan := RT.Step(h.chan, RT.Poll).value;
    ChannelIsSeparate(h, chan);
    HandleAllMatches(h.(chan := chan), rest);
  }

  lemma PeerWriteLinks(h: Host, m: Msg, sent: seq<Msg>, rest: seq<Msg>) returns (rest': seq<Msg>)
    requires Linked(h, sent, rest) && Fits(PeerWrite(m)) && Safe(h, PeerWrite(m)) && Step(h, PeerWrite(m)).Some?
    ensures var h1 := Step(h, PeerWrite(m)).value;
            Linked(h1, sent + [m], rest') && h1.w == h.w && h1.overrun == h.overrun
  {
    rest' := RT.StepKeepsInStep(h.chan, RT.Write(m), sent, rest);
    var chan := RT.Step(h.chan, RT.Write(m)).value;
    hide RT.InStep;
    ChannelIsSeparate(h, chan);
    hide Matched;
    hide Queue;
  }

  /** A new service has its rings, empty, and nothing was for it before. */
  lemma AddUserMatches(h: Host, y: Sys.System, isVchi: bool)
    requires Matched(h)
    requires Life.LifeOk(y) && y.st.unused == h.y.st.unused + 1
    ensures var h1 := h.(y := y, w := N.Step(h.w, N.AddUser(isVchi)).value);
            Matched(h1) && |h1.w.users| == |h.w.users| + 1
  {
    if !h.overrun {
      M.StepKeepsOrder(h.w, N.AddUser(isVchi));
    }
    hide M.AllInOrder;
    hide Life.LifeOk;
    hide IsFor;
  }

  lemma SystemIsSeparate(h: Host, y: Sys.System)
    requires Matched(h) && Life.LifeOk(y) && y.st.unused == h.y.st.unused
    ensures Matched(h.(y := y))
  {
    hide Life.LifeOk;
  }

  lemma ClientStepLinks(h: Host, op: Sys.Op, isVchi: bool, sent: seq<Msg>, rest: seq<Msg>)
    requires Linked(h, sent, rest) && Sys.Fits(op) && ClientStep(h, op, isVchi).Some?
    ensures var h1 := ClientStep(h, op, isVchi).value;
            Linked(h1, sent, rest) && |h.w.users| <= |h1.w.users| && h1.overrun == h.overrun
  {
    hide RT.InStep;
    hide Sys.Step;
    Life.StepKeepsLife(h.y, op);
    var y := Sys.Step(h.y, op).value;
    if y.st.unused == h.y.st.unused {
      SystemIsSeparate(h, y);
    } else {
      AddUserMatches(h, y, isVchi);
    }
    hide Matched;
  }

  lemma RingStepLinks(h: Host, op: N.Op, sent: seq<Msg>, rest: seq<Msg>)
    requires Linked(h, sent, rest)
    requires (op.Take? || op.Collect?) && RingStep(h, op).Some?
    ensures var h1 := RingStep(h, op).value;
            Linked(h1, sent, rest) && |h1.w.users| == |h.w.users| && h1.overrun == h.overrun
  {
    hide RT.InStep;
    if !h.overrun {
      M.StepKeepsOrder(h.w, op);
    }
    AcceptedStays(h.w, op);
    hide M.AllInOrder;
    hide N.Step;
    hide Life.LifeOk;
    hide IsFor;
  }

  lemma AcceptedStays(w: N.World, op: N.Op)
    requires N.Shaped(w) && (op.Take? || op.Collect?) && N.Step(w, op).Some?
    ensures var w1 := N.Step(w, op).value;
            w1.accepted == w.accepted && |w1.users| == |w.users|
  {
    hide Rings.Await;
  }

  lemma StepLinks(h: Host, op: Op, sent: seq<Msg>, rest: seq<Msg>) returns (rest': seq<Msg>)
    requires Linked(h, sent, rest) && Fits(op) && Safe(h, op) && Step(h, op).Some?
    ensures var h1 := Step(h, op).value;
            Linked(h1, sent + WrittenBy(op), rest') && (h.overrun ==> h1.overrun)
    ensures op.PollSlots? ==> rest' == []
  {
    hide Linked;
    hide PollStep;
    hide ClientStep;
    hide RingStep;
    rest' := rest;
    assert sent + [] == sent;
    match op
    case PeerWrite(m) => rest' := PeerWriteLinks(h, m, sent, rest);
    case PollSlots => PollStepLinks(h, sent, rest); rest' := [];
    case Client(op) => ClientStepLinks(h, op, true, sent, rest);
    case CreateOther(open) => ClientStepLinks(h, Sys.Create(open), false, sent, rest);
    case Take(i) => RingStepLinks(h, N.Take(i), sent, rest);
    case Collect(count) => if h.y.st.connected { RingStepLinks(h, N.Collect(count), sent, rest); }
  }

  // ----- runs -----

  /** No step of the run goes wrong; with both variants as documented, that is every run. */
  predicate SafeRun(h: Host, ops: seq<Op>)
    requires Aligned(h) && forall op | op in ops :: Fits(op)
    decreases |ops|
  {
    ops != [] ==> Safe(h, ops[0]) && (Step(h, ops[0]).Some? ==> SafeRun(Step(h, ops[0]).value, ops[1..]))
  }

  lemma {:induction false} RunLinks(h: Host, ops: seq<Op>, sent: seq<Msg>, rest: seq<Msg>) returns (rest': seq<Msg>)
    requires Linked(h, sent, rest) && (forall op | op in ops :: Fits(op)) && Run(h, ops).Some? && SafeRun(h, ops)
    ensures Linked(Run(h, ops).value, sent + Written(ops), rest')
    ensures if ops == [] then rest' == rest else ops[|ops| - 1].PollSlots? ==> rest' == []
    decreases |ops|
  {
    hide Linked;
    hide Step;
    hide Aligned;
    hide WrittenBy;
    hide Fits;
    rest' := rest;
    if ops == [] {
      assert sent + [] == sent;
    } else {
      var h1 := Step(h, ops[0]).value;
      var rest1 := StepLinks(h, ops[0], sent, rest);
      rest' := RunLinks(h1, ops[1..], sent + WrittenBy(ops[0]), rest1);
      assert sent + WrittenBy(ops[0]) + Written(ops[1..]) == sent + Written(ops);
      if |ops| == 1 {
        assert ops[1..] == [];
      } else {
        assert ops[1..][|ops| - 2] == ops[|ops| - 1];
      }
    }
  }

  /** Nothing written, parsed, created or queued, on either side. */
  predicate Initial(h: Host) {
    && Life.Initial(h.y) && h.w == N.Start() && RT.Fresh(h.chan) && h.log == [] && !h.overrun
  }

  /** The host over the slots of both sides, with nothing written. */
  function NewHost(own: Variant, peer: Variant, lookup: Variant, out: Side, incoming: Side): (h: Host)
    requires WriterOk(out) && out.localTxPos == 0 && WriterOk(incoming) && incoming.localTxPos == 0
    ensures Initial(h) && Aligned(h) && h.y.st.out == out && h.chan.side == incoming
  {
    Host(Life.NewSystem(own, out), N.Start(), RT.Channel(peer, lookup, incoming, Reader(0, None), []), [], false)
  }

  lemma InitialLinks(h: Host)
    requires Initial(h)
    ensures Linked(h, [], [])
  {
    assert Aligned(h);
    assert RT.InStep(h.chan, [], []);
    forall i: nat ensures MessagesFor(h.log, i) == [] {
    }
  }

  /**
   * Delivery, end to end. In every interleaving of peer writes, polls of the slot handler, client calls, dequeues
   * and drains, whatever the number and kind of services: the frames dispatched are those parsed; padding aside, they
   * are a prefix of what the peer queued, and all of it right after a poll; and as long as no callback has met a full
   * ring, what dequeue_message has returned for a vchi service, followed by what lies in its ring, is exactly the data
   * frames for its port that came from its remote port while it was open, in order, without loss or duplicate. The run
   * may follow the code as written as far as that is safe: the host's own padding is free, and the slot handler may
   * look up fresh slots from the published position as long as it enters none that is already full.
   */
  lemma DeliveredEndToEnd(h: Host, ops: seq<Op>)
    requires Initial(h) && Aligned(h) && (forall op | op in ops :: Fits(op)) && Run(h, ops).Some? && SafeRun(h, ops)
    ensures var r := Run(h, ops).value;
            && LoggedFrames(r.log) == r.chan.parsed
            && RT.NonPadding(r.chan.parsed) <= RT.NonPadding(Written(ops))
            && (ops != [] && ops[|ops| - 1].PollSlots? ==> RT.NonPadding(r.chan.parsed) == RT.NonPadding(Written(ops)))
            && (forall i: nat | i < |r.w.users| :: r.w.accepted[i] == MessagesFor(r.log, i))
            && (!r.overrun ==> forall i: nat | i < |r.w.users| && r.w.users[i].isVchi ::
                  && r.w.users[i].remove <= r.w.users[i].insert
                  && M.Somes(r.w.returned[i]) + M.InRing(r.w.users[i]) == M.Somes(MessagesFor(r.log, i)))
  {
    hide Linked;
    hide Step;
    hide MessagesFor;
    hide LoggedFrames;
    hide WrittenBy;
    InitialLinks(h);
    var rest := RunLinks(h, ops, [], []);
    assert [] + Written(ops) == Written(ops);
    LinkedDelivers(Run(h, ops).value, Written(ops), rest);
  }

  /** As documented, no step can go wrong. */
  lemma {:induction false} DocumentedIsSafe(h: Host, ops: seq<Op>)
    requires Aligned(h) && (forall op | op in ops :: Fits(op))
    requires h.chan.writer.AsDocumented? && h.chan.lookup.AsDocumented?
    ensures SafeRun(h, ops)
    decreases |ops|
  {
    hide Aligned;
    if ops != [] && Step(h, ops[0]).Some? {
      VariantsStay(h, ops[0]);
      hide Step;
      DocumentedIsSafe(Step(h, ops[0]).value, ops[1..]);
    }
  }

  lemma VariantsStay(h: Host, op: Op)
    requires Aligned(h) && Fits(op) && Step(h, op).Some?
    ensures var h1 := Step(h, op).value; h1.chan.writer == h.chan.writer && h1.chan.lookup == h.chan.lookup
  {
    hide Aligned;
    hide Queue;
    hide Parse;
    hide HandleAll;
    hide N.Step;
    hide Sys.Step;
  }

  lemma LinkedDelivers(r: Host, sent: seq<Msg>, rest: seq<Msg>)
    requires Linked(r, sent, rest)
    ensures LoggedFrames(r.log) == r.chan.parsed
    ensures RT.NonPadding(r.chan.parsed) <= RT.NonPadding(sent)
    ensures rest == [] ==> RT.NonPadding(r.chan.parsed) == RT.NonPadding(sent)
    ensures forall i: nat | i < |r.w.users| :: r.w.accepted[i] == MessagesFor(r.log, i)
    ensures !r.overrun ==> (forall i: nat | i < |r.w.users| && r.w.users[i].isVchi ::
              && r.w.users[i].remove <= r.w.users[i].insert
              && M.Somes(r.w.returned[i]) + M.InRing(r.w.users[i]) == M.Somes(MessagesFor(r.log, i)))
  {
    hide Aligned;
    hide MessagesFor;
    hide Tiles;
    RT.NonPaddingAppend(r.chan.parsed, rest);
    if rest == [] {
      assert r.chan.parsed + rest == r.chan.parsed;
    }
    if !r.overrun {
      forall i: nat | i < |r.w.users| && r.w.users[i].isVchi
        ensures r.w.users[i].remove <= r.w.users[i].insert
        ensures M.Somes(r.w.returned[i]) + M.InRing(r.w.users[i]) == M.Somes(MessagesFor(r.log, i))
      {
        assert M.InOrder(r.w, i);
      }
    }
  }

  // ----- the slot handler of the state kept in place -----

  /** Which service a callback was made for, and with which message. */
  function CallsFor(log: seq<Seen>, from: nat): seq<Objects.Call>
    requires from <= |log|
    decreases |log| - from
  {
    if from == |log| then []
    else
      var x := log[from];
      (if IsFor(x, DstPort(x.m.id)) then [Objects.Call(x.services[DstPort(x.m.id)].value.handle, x.m)] else [])
      + CallsFor(log, from + 1)
  }

  /**
   * The host handles a batch of messages exactly as the slot handler's loop does on the state kept in place: the
   * same final state, and one callback for every logged message that is for some service.
   */
  lemma {:induction false} HandleAllIsTheLoop(h: Host, ms: seq<Msg>)
    requires Aligned(h) && HandleAll(h, ms).Some?
    ensures var r := HandleAll(h, ms).value;
            && |r.log| == |h.log| + |ms| && r.log[..|h.log|] == h.log
            && Objects.HandleMessages(h.y.st, ms) == Some((r.y.st, CallsFor(r.log, |h.log|)))
    decreases |ms|
  {
    hide Aligned;
    hide Dispatch;
    hide IsFor;
    hide HandleOne;
    hide WriterOk;
    if ms == [] {
    } else {
      var h1 := HandleOne(h, ms[0]).value;
      var r := HandleAll(h, ms).value;
      OneIsDispatched(h, ms[0]);
      HandleAllIsTheLoop(h1, ms[1..]);
      assert r.log[|h.log|] == r.log[..|h1.log|][|h.log|];
      assert r.log[..|h.log|] == r.log[..|h1.log|][..|h.log|];
    }
  }

  lemma OneIsDispatched(h: Host, m: Msg)
    requires Aligned(h) && HandleOne(h, m).Some?
    ensures var h1 := HandleOne(h, m).value;
            var x := Seen(m, h.y.st.services);
            && h1.log == h.log + [x] && Dispatch(h.y.st, m).Dispatched? && h1.y.st == Dispatch(h.y.st, m).st
            && (if IsFor(x, DstPort(m.id))
                then x.services[DstPort(m.id)].Some?
                     && Dispatch(h.y.st, m).callback == Some(x.services[DstPort(m.id)].value.handle)
                else Dispatch(h.y.st, m).callback == None)
  {
    CallbackIsForService(h.y.st, m);
    hide Dispatch;
    hide WriterOk;
  }
}
