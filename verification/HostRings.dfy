/** The rings of the whole host: every run of the host is a run of the rings, so that what holds of those holds here. */
module HostRings {
  import opened Config
  import opened SlotMessage
  import opened State
  import opened Transport
  import opened Announcements
  import opened EndToEnd

  /** The ring operations `ws` lead from the rings of `a` to those of `b`. */
  predicate Leads(a: Host, ws: seq<N.Op>, b: Host) {
    N.Shaped(a.w) && N.Run(a.w, ws) == Some(b.w)
  }

  lemma NothingLeads(a: Host, b: Host)
    requires N.Shaped(a.w) && b.w == a.w
    ensures Leads(a, [], b)
  {
  }

  lemma OneLeads(a: Host, op: N.Op, b: Host)
    requires N.Shaped(a.w) && N.Step(a.w, op) == Some(b.w)
    ensures Leads(a, [op], b)
  {
    N.RunOne(a.w, op);
  }

  lemma LeadsOn(a: Host, ws: seq<N.Op>, b: Host, vs: seq<N.Op>, c: Host)
    requires Leads(a, ws, b) && Leads(b, vs, c)
    ensures Leads(a, ws + vs, c)
  {
    N.RunAppend(a.w, ws, vs);
  }

  lemma CallbackLeads(h: Host, handle: nat, m: Msg) returns (ws: seq<N.Op>)
    requires Aligned(h)
    ensures Leads(h, ws, CallBack(h, handle, m)) && N.VchiOnly(ws)
  {
    ws := [];
    var found := ServiceFromHandle(h.y.st, handle);
    if found.Some? && found.value < |h.w.users| {
      ws := [N.Deliver(found.value, m)];
      N.CallbackKeepsOwner(h.w.users[found.value], h.w.c, m);
      OneLeads(h, ws[0], CallBack(h, handle, m));
    } else {
      NothingLeads(h, CallBack(h, handle, m));
    }
  }

  lemma HandleOneLeads(h: Host, m: Msg) returns (ws: seq<N.Op>)
    requires Aligned(h) && HandleOne(h, m).Some?
    ensures Leads(h, ws, HandleOne(h, m).value) && N.VchiOnly(ws)
  {
    HandledStaysAligned(h, m);
    var d := Dispatch(h.y.st, m);
    var h1 := h.(y := h.y.(st := d.st), log := h.log + [Seen(m, h.y.st.services)]);
    hide Dispatch;
    hide Aligned;
    if d.callback.Some? {
      ws := CallbackLeads(h1, d.callback.value, m);
    } else {
      ws := [];
      NothingLeads(h, h1);
    }
    hide CallBack;
  }

  lemma {:induction false} HandleAllLeads(h: Host, ms: seq<Msg>) returns (ws: seq<N.Op>)
    requires Aligned(h) && HandleAll(h, ms).Some?
    ensures Leads(h, ws, HandleAll(h, ms).value) && N.VchiOnly(ws)
    decreases |ms|
  {
    if ms == [] {
      ws := [];
      NothingLeads(h, h);
    } else {
      hide Leads;
      var h1 := HandleOne(h, ms[0]).value;
      var vs := HandleOneLeads(h, ms[0]);
      var us := HandleAllLeads(h1, ms[1..]);
      LeadsOn(h, vs, h1, us, HandleAll(h1, ms[1..]).value);
      ws := vs + us;
      hide HandleOne;
      hide Aligned;
    }
  }

  lemma PollLeads(h: Host) returns (ws: seq<N.Op>)
    requires Aligned(h) && PollStep(h).Some?
    ensures Leads(h, ws, PollStep(h).value) && N.VchiOnly(ws)
  {
    var (reader, ms) :=
      Parse(h.chan.lookup, h.chan.side.mem, h.chan.side.queue, h.chan.reader, h.chan.side.txPos).value;
    hide Parse;
    ws := HandleAllLeads(h.(chan := h.chan.(reader := reader, parsed := h.chan.parsed + ms)), ms);
    hide HandleAll;
  }

  lemma ClientLeads(h: Host, op: Sys.Op, isVchi: bool) returns (ws: seq<N.Op>)
    requires Aligned(h) && Sys.Fits(op) && ClientStep(h, op, isVchi).Some?
    ensures Leads(h, ws, ClientStep(h, op, isVchi).value) && (isVchi ==> N.VchiOnly(ws))
  {
    var h1 := ClientStep(h, op, isVchi).value;
    if h1.w == h.w {
      ws := [];
      NothingLeads(h, h1);
    } else {
      ws := [N.AddUser(isVchi)];
      OneLeads(h, ws[0], h1);
    }
  }

  lemma StepLeads(h: Host, op: Op) returns (ws: seq<N.Op>)
    requires Aligned(h) && Fits(op) && Step(h, op).Some?
    ensures Leads(h, ws, Step(h, op).value) && (!op.CreateOther? ==> N.VchiOnly(ws))
  {
    var h1 := Step(h, op).value;
    hide Leads;
    ws := [];
    match op {
      case PeerWrite(m) => NothingLeads(h, h1);
      case PollSlots => ws := PollLeads(h);
      case Client(call) => ws := ClientLeads(h, call, true);
      case CreateOther(open) => ws := ClientLeads(h, Sys.Create(open), false);
      case Take(i) => ws := [N.Take(i)]; OneLeads(h, N.Take(i), h1);
      case Collect(count) =>
        if h.y.st.connected {
          ws := [N.Collect(count)];
          OneLeads(h, N.Collect(count), h1);
        } else {
          NothingLeads(h, h1);
        }
    }
  }

  lemma {:induction false} RunLeads(h: Host, ops: seq<Op>) returns (ws: seq<N.Op>)
    requires Aligned(h) && (forall op | op in ops :: Fits(op)) && Run(h, ops).Some?
    ensures Leads(h, ws, Run(h, ops).value)
    ensures (forall op | op in ops :: !op.CreateOther?) ==> N.VchiOnly(ws)
    decreases |ops|
  {
    if ops == [] {
      ws := [];
      NothingLeads(h, h);
    } else {
      hide Leads;
      hide Step;
      hide Aligned;
      hide Fits;
      var h1 := Step(h, ops[0]).value;
      var vs := StepLeads(h, ops[0]);
      var us := RunLeads(h1, ops[1..]);
      LeadsOn(h, vs, h1, us, Run(h1, ops[1..]).value);
      ws := vs + us;
    }
  }

  /**
   * In every run of the host, safe or not, with at most 128 services, all vchi: no drain of the completion ring ever
   * fails, and no notification is lost.
   */
  lemma NotifiedEndToEnd(h: Host, ops: seq<Op>)
    requires Initial(h) && Aligned(h) && (forall op | op in ops :: Fits(op)) && Run(h, ops).Some?
    requires (forall op | op in ops :: !op.CreateOther?) && |Run(h, ops).value.w.users| <= MAX_COMPLETIONS
    ensures var r := Run(h, ops).value;
            && (forall count: nat :: Step(r, Collect(count)).Some?)
            && (forall i: nat, k: nat | i < |r.w.users| && k < |r.w.accepted[i]| ::
                  var u := r.w.users[i];
                  || k < r.w.seen[i] || k in r.w.released[i]
                  || (r.w.c.remove <= u.availablePos < |r.w.posted| == r.w.c.insert
                      && r.w.c.cells[u.availablePos % MAX_COMPLETIONS] == Some(r.w.posted[u.availablePos])
                      && r.w.posted[u.availablePos].owner == i))
  {
    var ws := RunLeads(h, ops);
    var r := Run(h, ops).value;
    assert h.w == N.Start();
    hide Run;
    Completions.FewServicesNeverOverrun(ws);
    Completions.DrainsSucceedIff(ws);
    forall count: nat ensures Step(r, Collect(count)).Some? {
      assert N.Step(r.w, N.Collect(count)).Some?;
    }
    hide Step;
    forall i: nat, k: nat | i < |r.w.users| && k < |r.w.accepted[i]|
      ensures var u := r.w.users[i];
              || k < r.w.seen[i] || k in r.w.released[i]
              || (r.w.c.remove <= u.availablePos < |r.w.posted| == r.w.c.insert
                  && r.w.c.cells[u.availablePos % MAX_COMPLETIONS] == Some(r.w.posted[u.availablePos])
                  && r.w.posted[u.availablePos].owner == i)
    {
      Completions.NoLostNotification(ws, i, k);
    }
  }

  /**
   * Delivery to the services that are not vchi, end to end. In every safe run the completions posted for one are just
   * its data frames, in order, each with the frame in it; and `ws` being what the run did to the rings, as long as it
   * never posted to a full completion ring, those drained followed by those in the ring are all of them.
   */
  lemma OthersEndToEnd(h: Host, ops: seq<Op>, i: nat) returns (ws: seq<N.Op>)
    requires Initial(h) && Aligned(h) && (forall op | op in ops :: Fits(op)) && Run(h, ops).Some? && SafeRun(h, ops)
    requires i < |Run(h, ops).value.w.users| && !Run(h, ops).value.w.users[i].isVchi
    ensures var w, due := Run(h, ops).value.w, ForEach(MessagesFor(Run(h, ops).value.log, i), i);
            && N.Run(N.Start(), ws) == Some(w) && Of(w.posted, i) == due
            && (Completions.NeverOverrun(N.Start(), ws) ==>
                  && w.c.remove <= w.c.insert == |w.posted|
                  && (forall p | w.c.remove <= p < w.c.insert :: w.c.cells[p % MAX_COMPLETIONS] == Some(w.posted[p]))
                  && Of(w.drained, i) + Of(w.posted[w.c.remove..], i) == due)
  {
    ws := RunLeads(h, ops);
    assert h.w == N.Start();
    DeliveredEndToEnd(h, ops);
    hide Run;
    hide SafeRun;
    hide MessagesFor;
    OthersGetEachMessage(ws, i);
    if Completions.NeverOverrun(N.Start(), ws) {
      OthersDelivered(ws, i);
    }
  }
}
