/** Which messages the slot handler can dispatch, and what dispatching one leaves alone. */
module Dispatching {
  import opened Config
  import opened SlotMessage
  import opened Service
  import opened State
  import opened EndToEnd
  import opened Transport

  /** There is no service at the port, or it is free. */
  predicate NoService(services: seq<Option<Service>>, port: nat) {
    port < |services| ==> services[port].None? || services[port].value.state == FREE
  }

  /**
   * The messages that end the run, by their type and the table alone: an answer or data without a service, a CLOSE
   * for port 0 from another port than its service is connected to, and everything that is not implemented.
   */
  predicate EndsRun(services: seq<Option<Service>>, m: Msg) {
    var port := DstPort(m.id);
    && MsgType(m.id) !in {Some(CONNECT), Some(PADDING)}
    && (MsgType(m.id) in {Some(OPENACK), Some(DATA), Some(CLOSE), Some(BULK_RX_DONE), Some(BULK_TX_DONE)} ==>
          || NoService(services, port)
          || (MsgType(m.id) == Some(CLOSE) && port == 0 && 0 < |services| && services[0].Some?
              && services[0].value.remoteport !in {SrcPort(m.id), PORT_FREE}))
  }

  /** Exactly when a message ends the run. */
  lemma DispatchFailsIff(st: State, m: Msg)
    requires Sized(st)
    ensures Dispatch(st, m).Unimplemented? <==> EndsRun(st.services, m)
  {
    hide MsgType;
    hide SrcPort;
    hide DstPort;
    hide WriterOk;
  }

  /**
   * What dispatching a message changes: an OPENACK or a CLOSE only the service at its port, a CLOSE also one count of
   * that port's quota semaphore, a CONNECT one count of the connection's, and all others nothing.
   */
  lemma DispatchChanges(y: Sys.System, m: Msg)
    requires Life.LifeOk(y) && Dispatch(y.st, m).Dispatched?
    ensures var st, i := Dispatch(y.st, m).st, DstPort(m.id);
            if MsgType(m.id) in {Some(OPENACK), Some(CLOSE)} then
              && i < y.st.unused && |st.services| == MAX_SERVICES == |st.quotas|
              && (forall j | 0 <= j < MAX_SERVICES && j != i :: st.services[j] == y.st.services[j])
              && st == y.st.(services := st.services, quotas := st.quotas)
              && (if MsgType(m.id) == Some(OPENACK) then st.quotas == y.st.quotas
                  else
                    var q := y.st.quotas[i];
                    st.quotas == y.st.quotas[i := q.(quotaEvent := q.quotaEvent + 1)])
            else if MsgType(m.id) == Some(CONNECT) then st == y.st.(connectEvent := y.st.connectEvent + 1)
            else st == y.st
  {
    hide MsgType;
    hide SrcPort;
    hide OnClose;
    hide OnOpenAck;
    hide WriterOk;
  }

  // ----- batches -----

  /** Some message of the batch ends the run, in the table it meets. */
  predicate BatchEndsRun(h: Host, ms: seq<Msg>)
    requires Aligned(h)
  {
    exists k | 0 <= k < |ms| ::
      HandleAll(h, ms[..k]).Some? && EndsRun(HandleAll(h, ms[..k]).value.y.st.services, ms[k])
  }

  lemma HandleFirst(h: Host, ms: seq<Msg>, k: nat)
    requires Aligned(h) && 0 < k <= |ms|
    ensures HandleAll(h, ms[..k])
         == (if HandleOne(h, ms[0]).None? then None else HandleAll(HandleOne(h, ms[0]).value, ms[1..][..k - 1]))
  {
    hide HandleOne;
    hide Aligned;
    assert ms[..k][0] == ms[0] && ms[..k][1..] == ms[1..][..k - 1];
  }

  lemma BatchFirstOrLater(h: Host, ms: seq<Msg>)
    requires Aligned(h) && ms != []
    ensures BatchEndsRun(h, ms) <==>
              || EndsRun(h.y.st.services, ms[0])
              || (HandleOne(h, ms[0]).Some? && BatchEndsRun(HandleOne(h, ms[0]).value, ms[1..]))
  {
    hide HandleOne;
    hide Aligned;
    hide EndsRun;
    assert ms[..0] == [] && HandleAll(h, ms[..0]) == Some(h);
    forall k | 0 < k <= |ms|
      ensures HandleAll(h, ms[..k])
           == (if HandleOne(h, ms[0]).None? then None else HandleAll(HandleOne(h, ms[0]).value, ms[1..][..k - 1]))
    {
      HandleFirst(h, ms, k);
    }
    hide HandleAll;
    if HandleOne(h, ms[0]).Some? {
      var h1 := HandleOne(h, ms[0]).value;
      if BatchEndsRun(h1, ms[1..]) {
        var k :| 0 <= k < |ms[1..]| && HandleAll(h1, ms[1..][..k]).Some?
                 && EndsRun(HandleAll(h1, ms[1..][..k]).value.y.st.services, ms[1..][k]);
        assert ms[1..][k] == ms[k + 1] && HandleAll(h, ms[..k + 1]).Some?;
      }
    }
  }

  /** Exactly when a batch cannot be handled: one of its messages ends the run, in the table it meets. */
  lemma {:induction false} HandleAllFailsIff(h: Host, ms: seq<Msg>)
    requires Aligned(h)
    ensures HandleAll(h, ms).None? <==> BatchEndsRun(h, ms)
    decreases |ms|
  {
    if ms != [] {
      DispatchFailsIff(h.y.st, ms[0]);
      BatchFirstOrLater(h, ms);
      hide BatchEndsRun;
      hide EndsRun;
      hide Dispatch;
      hide Aligned;
      if HandleOne(h, ms[0]).Some? {
        HandleAllFailsIff(HandleOne(h, ms[0]).value, ms[1..]);
      }
    }
  }

  /** The host once `ms` has been read, and the reader stands at the published position. */
  function Read(h: Host, ms: seq<Msg>): Host {
    h.(chan := h.chan.(reader := ReaderAt(h.chan.side.queue, h.chan.side.txPos), parsed := h.chan.parsed + ms))
  }

  /**
   * Exactly when a poll of the slot handler fails. After every safe run, if the poll is safe: it reads frames that
   * are, padding aside, just those the peer has queued and no poll has read, and fails if and only if one of them
   * ends the run in the table it meets. The slots, the rings and the callbacks never make it fail.
   */
  lemma PollFailsIff(h: Host, ops: seq<Op>) returns (rest: seq<Msg>)
    requires Initial(h) && Aligned(h) && (forall op | op in ops :: Fits(op)) && Run(h, ops).Some? && SafeRun(h, ops)
    requires Safe(Run(h, ops).value, PollSlots)
    ensures var r := Run(h, ops).value;
            && RT.NonPadding(r.chan.parsed + rest) == RT.NonPadding(Written(ops))
            && Aligned(Read(r, rest)) && (Step(r, PollSlots).None? <==> BatchEndsRun(Read(r, rest), rest))
  {
    hide Linked;
    hide Step;
    hide Aligned;
    hide WrittenBy;
    InitialLinks(h);
    rest := RunLinks(h, ops, [], []);
    assert [] + Written(ops) == Written(ops);
    LinkedPollFailsIff(Run(h, ops).value, Written(ops), rest);
  }

  lemma LinkedPollFailsIff(h: Host, sent: seq<Msg>, rest: seq<Msg>)
    requires Linked(h, sent, rest) && Safe(h, PollSlots)
    ensures RT.NonPadding(h.chan.parsed + rest) == RT.NonPadding(sent)
    ensures Aligned(Read(h, rest)) && (Step(h, PollSlots).None? <==> BatchEndsRun(Read(h, rest), rest))
  {
    RT.PollKeepsInStep(h.chan, sent, rest);
    ChannelIsSeparate(h, Read(h, rest).chan);
    hide Matched;
    hide RT.InStep;
    hide HandleAll;
    hide EndsRun;
    hide Parse;
    HandleAllFailsIff(Read(h, rest), rest);
  }
}
