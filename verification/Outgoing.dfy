/** What lies in the outgoing slots: frame by frame, the messages queued, and what padding as written does to them. */
module Outgoing {
  import opened Config
  import opened SlotMessage
  import opened Slots
  import opened Transport
  import RT = RoundTrip
  import V = Variants
  import opened State
  import opened System
  import opened Lifecycle
  import opened Trace

  function Messages(sent: seq<Sent>): seq<Msg> {
    seq(|sent|, k requires 0 <= k < |sent| => sent[k].m)
  }

  // ----- the stream of a list of messages -----

  lemma OnlyPaddingBefore(pads: seq<Msg>, m: Msg)
    requires (forall p | p in pads :: IsPadding(p)) && !IsPadding(m)
    ensures RT.NonPadding(pads + [m]) == [m]
  {
    RT.OnlyPadding(pads);
    RT.NonPaddingAppend(pads, [m]);
    assert [m][1..] == [];
    assert RT.NonPadding([m]) == [m];
    hide RT.NonPadding;
    assert [] + [m] == [m];
  }

  /** Queueing extends the stream by the message, after at most one padding. */
  lemma QueueGrowsStream(v: Variant, a: Side, m: Msg, fs: seq<Msg>) returns (fs': seq<Msg>)
    requires WriterOk(a) && Stride(m) <= SLOT_SIZE && Queue(v, a, m).Some? && !IsPadding(m)
    requires RT.PadsSafely(v, a.localTxPos, m) && Tiles(Frames(a.mem, a.queue), 0, a.localTxPos, fs)
    ensures var b := Queue(v, a, m).value;
            && Tiles(Frames(b.mem, b.queue), 0, b.localTxPos, fs')
            && RT.NonPadding(fs') == RT.NonPadding(fs) + [m]
  {
    hide Tiles;
    hide SameBelow;
    hide Queue;
    hide RT.NonPadding;
    hide QueueOk;
    hide MemoryPadded;
    hide StoreMessage;
    hide Frames;
    hide StartPos;
    QueueEffect(v, a, m);
    var b := Queue(v, a, m).value;
    var pads := RT.QueueAddsFrame(v, a, m);
    fs' := fs + (pads + [m]);
    RT.TilesGrow(Frames(a.mem, a.queue), Frames(b.mem, b.queue), 0, a.localTxPos, b.localTxPos, fs, pads + [m]);
    OnlyPaddingBefore(pads, m);
    RT.NonPaddingAppend(fs, pads + [m]);
  }

  lemma QueueAllOneMore(v: Variant, s: Side, init: seq<Msg>, m: Msg)
    requires WriterOk(s) && V.Sendable(init + [m]) && V.Sendable(init)
    ensures V.QueueAll(v, s, init + [m])
            == (if V.QueueAll(v, s, init).None? then None else Queue(v, V.QueueAll(v, s, init).value, m))
  {
    hide Queue;
    hide WriterOk;
    hide IsPadding;
    var ms := init + [m];
    assert ms[..|ms| - 1] == init && ms[|ms| - 1] == m;
    assert m in ms;
  }

  /** Where padding is harmless, the slots are cut into the messages queued, with paddings in between. */
  lemma {:induction false} QueueAllTiles(v: Variant, s: Side, ms: seq<Msg>) returns (fs: seq<Msg>)
    requires WriterOk(s) && s.localTxPos == 0 && V.Sendable(ms) && V.QueueAll(v, s, ms).Some?
    requires v.AsDocumented? || !V.Pads(ms)
    ensures var r := V.QueueAll(v, s, ms).value;
            Tiles(Frames(r.mem, r.queue), 0, r.localTxPos, fs) && RT.NonPadding(fs) == ms
    decreases |ms|
  {
    hide Queue;
    hide IsPadding;
    hide WriterOk;
    hide Tiles;
    hide RT.NonPadding;
    hide Frames;
    if ms == [] {
      fs := [];
      EmptyStream(s);
    } else {
      hide RT.EndPos;
      hide V.Pads;
      hide V.Starts;
      hide V.Sendable;
      var init, m := ms[..|ms| - 1], ms[|ms| - 1];
      assert init + [m] == ms;
      V.OneMore(init, m);
      QueueAllOneMore(v, s, init, m);
      hide V.QueueAll;
      V.CapacityIff(v, s, init);
      var fs0 := QueueAllTiles(v, s, init);
      fs := QueueGrowsStream(v, V.QueueAll(v, s, init).value, m, fs0);
    }
  }

  lemma EmptyStream(s: Side)
    ensures Tiles(Frames(s.mem, s.queue), 0, 0, []) && RT.NonPadding([]) == []
  {
  }

  // ----- every run queues its messages one by one -----

  /** The outgoing slots are those that queueing the messages sent gives. */
  predicate SlotsAreQueued(st: State, out: Side) {
    && WriterOk(out) && out.localTxPos == 0 && V.Sendable(Messages(st.sent))
    && V.QueueAll(st.writer, out, Messages(st.sent)) == Some(st.out)
    && st.out.localTxPos == RT.EndPos(Messages(st.sent))
  }

  /** A frame from `start` lies in the slot with index `slot`, one of the `avail` first. */
  predicate LiesIn(start: nat, m: Msg, slot: nat, avail: nat) {
    slot == start / SLOT_SIZE == (start + Stride(m) - 1) / SLOT_SIZE < avail
  }

  /** Every message is recorded under the slot that its frame lies in. */
  predicate RecordedWhereLying(sent: seq<Sent>, avail: nat) {
    forall k | 0 <= k < |sent| :: LiesIn(V.Starts(Messages(sent))[k], sent[k].m, sent[k].slot, avail)
  }

  lemma MessagesOneMore(sent: seq<Sent>, x: Sent)
    ensures Messages(sent + [x]) == Messages(sent) + [x.m]
  {
  }

  /** The slot of a message's last byte, which the code computes, is that of its first. */
  lemma LastByteInSameSlot(v: Variant, s: Side, m: Msg)
    requires WriterOk(s) && Stride(m) <= SLOT_SIZE && Queue(v, s, m).Some?
    ensures var pos := StartPos(s.localTxPos, Stride(m));
            && Queue(v, s, m).value.localTxPos == pos + Stride(m)
            && LiesIn(pos, m, SlotIndex(Queue(v, s, m).value.localTxPos - 1), s.avail)
  {
    hide Queue;
    RT.QueueEnds(v, s, m);
    StartPosFits(s.localTxPos, Stride(m), s.avail);
  }

  lemma MovesKeepRecorded(a: State, b: State, out: Side)
    requires SlotsAreQueued(a, out) && Moves(a, b) && RecordedWhereLying(a.sent, a.out.avail)
    ensures RecordedWhereLying(b.sent, a.out.avail)
  {
    hide InTurn;
    hide Queue;
    hide WriterOk;
    hide V.QueueAll;
    hide V.Sendable;
    if b.sent != a.sent {
      var x := b.sent[|a.sent|];
      LastByteInSameSlot(a.writer, a.out, x.m);
      hide LiesIn;
      hide V.Starts;
      hide RT.EndPos;
      MessagesOneMore(a.sent, x);
      V.OneMore(Messages(a.sent), x.m);
    }
  }

  lemma MovesKeepQueued(a: State, b: State, out: Side)
    requires SlotsAreQueued(a, out) && Moves(a, b)
    ensures SlotsAreQueued(b, out) && b.out.avail == a.out.avail
  {
    if b.sent != a.sent {
      var x := b.sent[|a.sent|];
      hide Queue;
      hide WriterOk;
      assert !IsPadding(x.m) && Stride(x.m) <= SLOT_SIZE;
      hide InTurn;
      hide MsgType;
      hide SrcPort;
      hide IsPadding;
      hide V.QueueAll;
      hide V.Pads;
      hide V.Starts;
      hide V.Sendable;
      hide RT.EndPos;
      hide StartPos;
      RT.QueueEnds(a.writer, a.out, x.m);
      MessagesOneMore(a.sent, x);
      V.OneMore(Messages(a.sent), x.m);
      QueueAllOneMore(a.writer, out, Messages(a.sent), x.m);
    }
  }

  lemma {:induction false} RunKeepsQueued(y: System, ops: seq<Op>, out: Side)
    requires LifeOk(y) && TraceOk(y.st) && (forall op | op in ops :: Fits(op)) && Run(y, ops).Some?
    requires SlotsAreQueued(y.st, out) && RecordedWhereLying(y.st.sent, y.st.out.avail)
    ensures SlotsAreQueued(Run(y, ops).value.st, out) && Run(y, ops).value.st.writer == y.st.writer
    ensures RecordedWhereLying(Run(y, ops).value.st.sent, Run(y, ops).value.st.out.avail)
    decreases |ops|
  {
    hide Step;
    hide LifeOk;
    hide TraceOk;
    hide SlotsAreQueued;
    hide RecordedWhereLying;
    if ops != [] {
      var y1 := Step(y, ops[0]).value;
      StepMoves(y, ops[0]);
      StepKeepsLife(y, ops[0]);
      TableIsFilled(y1);
      MovesKeepTrace(y.st, y1.st);
      MovesKeepRecorded(y.st, y1.st, out);
      MovesKeepQueued(y.st, y1.st, out);
      RunKeepsQueued(y1, ops[1..], out);
    }
  }

  /**
   * The grammar and the slots. In every run what is sent follows the grammar. All of it stays readable where it was
   * put if and only if the padding goes where the comment says or none was needed; and then a reader of the
   * published bytes ends exactly at the published position and finds, padding aside, just those messages.
   */
  lemma SlotsConform(y: System, ops: seq<Op>) returns (fs: seq<Msg>)
    requires Initial(y) && LifeOk(y) && (forall op | op in ops :: Fits(op)) && Run(y, ops).Some?
    ensures var st := Run(y, ops).value.st;
            var ms := Messages(st.sent);
            && Grammar(st.sent)
            && (V.Intact(st.out, ms) <==> y.st.writer.AsDocumented? || !V.Pads(ms))
            && (y.st.writer.AsDocumented? || !V.Pads(ms) ==>
                  && Parse(AsDocumented, st.out.mem, st.out.queue, Reader(0, None), st.out.txPos)
                     == Some((ReaderAt(st.out.queue, st.out.txPos), fs))
                  && RT.NonPadding(fs) == ms)
  {
    InitialTrace(y);
    InitialIsQueued(y);
    TraceConforms(y, ops);
    RunKeepsQueued(y, ops, y.st.out);
    var st := Run(y, ops).value.st;
    var ms := Messages(st.sent);
    hide Run;
    hide Initial;
    hide Grammar;
    hide V.QueueAll;
    hide V.Pads;
    V.PaddingHarmlessIff(y.st.writer, y.st.out, ms);
    fs := [];
    if y.st.writer.AsDocumented? || !V.Pads(ms) {
      fs := QueueAllTiles(y.st.writer, y.st.out, ms);
      RT.ParseReadsFrames(AsDocumented, st.out.mem, st.out.queue, 0, st.out.txPos, fs);
    }
  }

  /**
   * The slots that the quotas count are those the frames lie in: in every run each message is recorded under the slot
   * in which it starts and ends, one of the slots the writer owns.
   */
  lemma RecordedWhereFramesLie(y: System, ops: seq<Op>)
    requires Initial(y) && LifeOk(y) && (forall op | op in ops :: Fits(op)) && Run(y, ops).Some?
    ensures var st := Run(y, ops).value.st;
            forall k | 0 <= k < |st.sent| ::
              LiesIn(V.Starts(Messages(st.sent))[k], st.sent[k].m, st.sent[k].slot, st.out.avail)
  {
    InitialTrace(y);
    InitialIsQueued(y);
    RunKeepsQueued(y, ops, y.st.out);
  }

  lemma InitialIsQueued(y: System)
    requires Initial(y)
    ensures SlotsAreQueued(y.st, y.st.out) && RecordedWhereLying(y.st.sent, y.st.out.avail)
  {
    assert Messages(y.st.sent) == [];
  }
}
