/**
 * The message rings of the vchi services, whatever the number and kind of services beside them: order, and exactly when
 * a dequeue meets an empty cell.
 */
module MessageRings {
  import opened Config
  import opened SlotMessage
  import opened Rings
  import opened Worlds

  /** The counters of a message ring, whether or not it has been overrun; a pending dequeuer means empty. */
  predicate CountersOk(w: World, i: nat)
    requires Shaped(w) && i < |w.users|
  {
    var u := w.users[i];
    && u.insert == |w.accepted[i]| && u.remove == |w.returned[i]| && u.remove <= u.insert
    && (u.dequeuePending ==> u.remove == u.insert)
  }

  /** The counters of every vchi service. */
  predicate Counted(w: World)
    ensures Counted(w) ==> Shaped(w)
  {
    && Shaped(w)
    && forall i | 0 <= i < |w.users| && w.users[i].isVchi :: CountersOk(w, i)
  }

  /** The messages in the ring, oldest first. */
  function InRing(u: User): (ms: seq<Option<Msg>>)
    requires UserSized(u) && u.remove <= u.insert
    ensures |ms| == u.insert - u.remove
  {
    seq(u.insert - u.remove, k requires 0 <= k => u.cells[(u.remove + k) % MSG_QUEUE_SIZE])
  }

  function Somes(ms: seq<Msg>): (r: seq<Option<Msg>>)
    ensures |r| == |ms|
  {
    seq(|ms|, k requires 0 <= k < |ms| => Some(ms[k]))
  }

  /** Returned messages followed by those in the ring are the accepted ones, in order, without loss or duplicate. */
  predicate InOrder(w: World, i: nat)
    requires Shaped(w) && i < |w.users|
  {
    CountersOk(w, i) && Somes(w.returned[i]) + InRing(w.users[i]) == Somes(w.accepted[i])
  }

  function Pending(w: World, i: nat): int
    requires i < |w.users|
  {
    w.users[i].insert - w.users[i].remove
  }

  /** Every vchi service's ring is in order and within its capacity. */
  predicate AllInOrder(w: World)
    ensures AllInOrder(w) ==> Shaped(w)
  {
    && Shaped(w)
    && forall i | 0 <= i < |w.users| && w.users[i].isVchi :: InOrder(w, i) && Pending(w, i) <= MSG_QUEUE_SIZE
  }

  // ----- the counters, in every run -----

  lemma StepKeepsCounted(w: World, op: Op)
    requires Counted(w) && Step(w, op).Some?
    ensures Counted(Step(w, op).value)
  {
    hide Callback;
    hide Await;
    if op.Deliver? {
      var u := w.users[op.i];
      if u.isVchi {
        CallbackInserts(u, w.c, op.m);
        assert CountersOk(w, op.i);
      } else {
        CallbackKeepsRing(u, w.c, op.m);
      }
    }
    var w1 := Step(w, op).value;
    forall i | 0 <= i < |w1.users| && w1.users[i].isVchi
      ensures CountersOk(w1, i)
    {
      assert i < |w.users| && w.users[i].isVchi ==> CountersOk(w, i);
    }
  }

  lemma StartIsCounted()
    ensures Counted(Start()) && AllInOrder(Start())
  {
  }

  lemma {:induction false} RunKeepsCounted(w: World, ops: seq<Op>)
    requires Counted(w) && Run(w, ops).Some?
    ensures Counted(Run(w, ops).value)
    decreases |ops|
  {
    hide Step;
    hide Counted;
    if ops != [] {
      StepKeepsCounted(w, ops[0]);
      RunKeepsCounted(Step(w, ops[0]).value, ops[1..]);
    }
  }

  /** In every run a dequeuer is marked as waiting only while its ring is empty, and no message is counted twice. */
  lemma PendingMeansEmpty(ops: seq<Op>, i: nat)
    requires Run(Start(), ops).Some?
    requires i < |Run(Start(), ops).value.users| && Run(Start(), ops).value.users[i].isVchi
    ensures var w := Run(Start(), ops).value;
            && |w.returned[i]| + Pending(w, i) == |w.accepted[i]| && Pending(w, i) >= 0
            && (w.users[i].dequeuePending ==> Pending(w, i) == 0)
  {
    StartIsCounted();
    RunKeepsCounted(Start(), ops);
    assert CountersOk(Run(Start(), ops).value, i);
  }

  // ----- one operation on one ring -----

  lemma SomesOneMore(ms: seq<Msg>, m: Msg)
    ensures Somes(ms + [m]) == Somes(ms) + [Some(m)]
  {
  }

  /** With room in the ring a callback appends its message. */
  lemma RoomyDelivery(w: World, i: nat, m: Msg)
    requires Shaped(w) && i < |w.users| && w.users[i].isVchi && InOrder(w, i) && Pending(w, i) < MSG_QUEUE_SIZE
    ensures Shaped(DeliverStep(w, i, m)) && InOrder(DeliverStep(w, i, m), i)
  {
    hide Callback;
    var u := w.users[i];
    CallbackInserts(u, w.c, m);
    CallbackKeepsOwner(u, w.c, m);
    var w1 := DeliverStep(w, i, m);
    var u1 := w1.users[i];
    assert InRing(u1) == InRing(u) + [Some(m)] by {
      forall k | 0 <= k < |InRing(u)| ensures InRing(u1)[k] == InRing(u)[k] {
        CellsApart(u.remove + k, u.insert);
      }
    }
    SomesOneMore(w.accepted[i], m);
  }

  /** A callback on a full ring puts its message where the oldest one was. */
  lemma FullDelivery(w: World, i: nat) returns (m: Msg)
    requires Shaped(w) && i < |w.users| && w.users[i].isVchi && InOrder(w, i) && Pending(w, i) == MSG_QUEUE_SIZE
    ensures Shaped(DeliverStep(w, i, m)) && !InOrder(DeliverStep(w, i, m), i)
  {
    hide Callback;
    var u := w.users[i];
    var all := Somes(w.returned[i]) + InRing(u);
    assert all[u.remove] == InRing(u)[0] == Some(w.accepted[i][u.remove]);
    var oldest := w.accepted[i][u.remove];
    m := Msg(oldest.id, oldest.data + [0]);
    CallbackInserts(u, w.c, m);
    CallbackKeepsOwner(u, w.c, m);
    var w1 := DeliverStep(w, i, m);
    var u1 := w1.users[i];
    SameCell(u.remove);
    assert InRing(u1)[0] == Some(m);
    assert (Somes(w1.returned[i]) + InRing(u1))[u.remove] == Some(m);
    assert Somes(w1.accepted[i])[u.remove] == Some(oldest);
  }

  /**
   * Exactly when a message ring keeps its order: a callback does, whatever its message, if and only if the ring is
   * not full. Nothing waits for room.
   */
  lemma DeliveryInOrderIff(w: World, i: nat)
    requires Shaped(w) && i < |w.users| && w.users[i].isVchi && InOrder(w, i) && Pending(w, i) <= MSG_QUEUE_SIZE
    ensures (forall m :: Shaped(DeliverStep(w, i, m)) && InOrder(DeliverStep(w, i, m), i))
            <==> Pending(w, i) < MSG_QUEUE_SIZE
  {
    if Pending(w, i) < MSG_QUEUE_SIZE {
      forall m ensures Shaped(DeliverStep(w, i, m)) && InOrder(DeliverStep(w, i, m), i) {
        RoomyDelivery(w, i, m);
      }
    } else {
      var m := FullDelivery(w, i);
    }
  }

  /** Emptying the oldest cell leaves the rest of the ring as it is. */
  lemma RingWithoutOldest(u: User, u1: User)
    requires UserSized(u) && u.remove < u.insert <= u.remove + MSG_QUEUE_SIZE
    requires u1 == u.(remove := u.remove + 1, removeEvent := u1.removeEvent,
                      cells := u.cells[u.remove % MSG_QUEUE_SIZE := None])
    ensures InRing(u) == [u.cells[u.remove % MSG_QUEUE_SIZE]] + InRing(u1)
  {
    forall k | 0 <= k < |InRing(u1)| ensures InRing(u1)[k] == InRing(u)[k + 1] {
      CellsApart(u.remove, u.remove + k + 1);
    }
  }

  /** A ring that is not empty gives its oldest message. */
  lemma DequeueOldest(u: User, returned: seq<Msg>, accepted: seq<Msg>)
    requires UserSized(u) && u.isVchi && u.remove == |returned| < |accepted| == u.insert <= u.remove + MSG_QUEUE_SIZE
    requires Somes(returned) + InRing(u) == Somes(accepted)
    ensures Dequeue(u).Took? && Dequeue(u).msg == accepted[u.remove]
    ensures var u1 := Dequeue(u).u;
            && u1 == u.(remove := u.remove + 1, removeEvent := u.removeEvent + 1, cells := u1.cells)
            && Somes(returned + [accepted[u.remove]]) + InRing(u1) == Somes(accepted)
  {
    var m := accepted[u.remove];
    var at := u.remove % MSG_QUEUE_SIZE;
    var u1 := u.(remove := u.remove + 1, removeEvent := u.removeEvent + 1, cells := u.cells[at := None]);
    RingWithoutOldest(u, u1);
    var all := Somes(returned) + InRing(u);
    hide InRing;
    assert all[u.remove] == u.cells[at] == Some(m);
    SomesOneMore(returned, m);
    assert Somes(returned) + [Some(m)] + InRing(u1) == all;
  }

  /** In a ring in order and within its capacity a dequeue meets no empty cell, and returns the oldest message. */
  lemma TakeInOrder(w: World, i: nat)
    requires Shaped(w) && i < |w.users| && w.users[i].isVchi && InOrder(w, i) && Pending(w, i) <= MSG_QUEUE_SIZE
    ensures Step(w, Take(i)).Some?
    ensures var w1 := Step(w, Take(i)).value;
            && InOrder(w1, i) && Pending(w1, i) == Pending(w, i) - Min(1, Pending(w, i))
            && w1.accepted == w.accepted
            && w1.returned[i] == w.returned[i] + w.accepted[i][|w.returned[i]|..|w1.returned[i]|]
            && |w1.returned[i]| == |w.returned[i]| + Min(1, Pending(w, i))
  {
    var u := w.users[i];
    if u.remove < u.insert {
      DequeueOldest(u, w.returned[i], w.accepted[i]);
      hide Dequeue;
      hide InRing;
    }
  }

  // ----- runs in which no callback meets a full ring -----

  /** The step does not hand a message to the full ring of a vchi service. */
  predicate HasRoom(w: World, op: Op) {
    op.Deliver? && op.i < |w.users| && w.users[op.i].isVchi ==> Pending(w, op.i) < MSG_QUEUE_SIZE
  }

  /** No callback of the run meets a full message ring. */
  predicate NeverFull(w: World, ops: seq<Op>)
    requires Shaped(w)
    decreases |ops|
  {
    ops != [] ==> HasRoom(w, ops[0]) && (Step(w, ops[0]).Some? ==> NeverFull(Step(w, ops[0]).value, ops[1..]))
  }

  lemma StepKeepsOrder(w: World, op: Op)
    requires AllInOrder(w) && Step(w, op).Some? && HasRoom(w, op)
    ensures AllInOrder(Step(w, op).value)
  {
    var w1 := Step(w, op).value;
    if op.Take? {
      assert w.users[op.i].isVchi;
      TakeInOrder(w, op.i);
    }
    if op.Deliver? {
      if w.users[op.i].isVchi {
        CallbackInserts(w.users[op.i], w.c, op.m);
        RoomyDelivery(w, op.i, op.m);
      } else {
        CallbackKeepsRing(w.users[op.i], w.c, op.m);
      }
    }
    hide Callback;
    hide Dequeue;
    hide Await;
    forall i | 0 <= i < |w1.users| && w1.users[i].isVchi
      ensures InOrder(w1, i) && Pending(w1, i) <= MSG_QUEUE_SIZE
    {
      if i < |w.users| && w.users[i].isVchi {
        assert InOrder(w, i) && Pending(w, i) <= MSG_QUEUE_SIZE;
      }
    }
  }

  lemma {:induction false} RunKeepsOrder(w: World, ops: seq<Op>)
    requires AllInOrder(w) && NeverFull(w, ops) && Run(w, ops).Some?
    ensures AllInOrder(Run(w, ops).value)
    decreases |ops|
  {
    hide Step;
    hide AllInOrder;
    hide HasRoom;
    if ops != [] {
      StepKeepsOrder(w, ops[0]);
      RunKeepsOrder(Step(w, ops[0]).value, ops[1..]);
    }
  }

  /**
   * In every run in which no callback meets a full ring, what dequeue_message has returned to a vchi service, followed
   * by what lies in its ring, is exactly what was handed to its callback, in order, without loss or duplicate.
   */
  lemma MessagesInOrder(ops: seq<Op>, i: nat)
    requires Run(Start(), ops).Some? && NeverFull(Start(), ops)
    requires i < |Run(Start(), ops).value.users| && Run(Start(), ops).value.users[i].isVchi
    ensures InOrder(Run(Start(), ops).value, i)
  {
    StartIsCounted();
    RunKeepsOrder(Start(), ops);
  }

  // ----- exactly when a dequeue meets an empty cell -----

  /** A message of the ring has been overwritten, or its cell emptied: the ring has wrapped around onto itself. */
  predicate Broken(u: User, p: nat) {
    && UserSized(u) && u.remove <= p < u.insert
    && (u.cells[p % MSG_QUEUE_SIZE].None? || p + MSG_QUEUE_SIZE < u.insert)
  }

  /** Once a ring is broken it stays so; `p` is where, for as long as the dequeues get that far. */
  lemma DeliverKeepsBroken(w: World, i: nat, p: nat, at: nat, m: Msg)
    requires Shaped(w) && i < |w.users| && w.users[i].isVchi && Broken(w.users[i], p) && at < |w.users|
    ensures Broken(DeliverStep(w, at, m).users[i], p) && DeliverStep(w, at, m).users[i].isVchi
  {
    hide Callback;
    if at == i {
      CallbackInserts(w.users[i], w.c, m);
      var u := w.users[i];
      if u.insert % MSG_QUEUE_SIZE == p % MSG_QUEUE_SIZE && u.insert < p + MSG_QUEUE_SIZE {
        CellsApart(p, u.insert);
      }
    }
  }

  lemma TakeKeepsBroken(w: World, i: nat, p: nat, at: nat) returns (p': nat)
    requires Shaped(w) && i < |w.users| && w.users[i].isVchi && Broken(w.users[i], p) && Step(w, Take(at)).Some?
    ensures Broken(Step(w, Take(at)).value.users[i], p') && Step(w, Take(at)).value.users[i].isVchi
  {
    p' := if at == i && w.users[i].remove == p then p + MSG_QUEUE_SIZE else p;
    if p' != p {
      SameCell(p);
    }
  }

  lemma StepKeepsBroken(w: World, op: Op, i: nat, p: nat) returns (p': nat)
    requires Shaped(w) && i < |w.users| && w.users[i].isVchi && Broken(w.users[i], p) && Step(w, op).Some?
    ensures var w1 := Step(w, op).value;
            i < |w1.users| && w1.users[i].isVchi && Broken(w1.users[i], p')
  {
    p' := p;
    if op.Deliver? {
      DeliverKeepsBroken(w, i, p, op.i, op.m);
    }
    if op.Take? {
      p' := TakeKeepsBroken(w, i, p, op.i);
    }
    hide Broken;
    hide Callback;
    hide Dequeue;
    hide Await;
  }

  lemma {:induction false} RunKeepsBroken(w: World, ops: seq<Op>, i: nat, p: nat) returns (p': nat)
    requires Shaped(w) && i < |w.users| && w.users[i].isVchi && Broken(w.users[i], p) && Run(w, ops).Some?
    ensures var w1 := Run(w, ops).value;
            i < |w1.users| && w1.users[i].isVchi && Broken(w1.users[i], p')
    decreases |ops|
  {
    hide Step;
    hide Broken;
    p' := p;
    if ops != [] {
      var p1 := StepKeepsBroken(w, ops[0], i, p);
      p' := RunKeepsBroken(Step(w, ops[0]).value, ops[1..], i, p1);
    }
  }

  /** A callback on a full ring breaks it. */
  lemma FullRingBreaks(w: World, op: Op)
    requires Counted(w) && Step(w, op).Some? && !HasRoom(w, op)
    ensures var w1 := Step(w, op).value;
            op.i < |w1.users| && w1.users[op.i].isVchi && Broken(w1.users[op.i], w.users[op.i].remove)
  {
    hide Callback;
    assert CountersOk(w, op.i);
    CallbackInserts(w.users[op.i], w.c, op.m);
  }

  lemma {:induction false} FullRunBreaks(w: World, ops: seq<Op>) returns (i: nat, p: nat)
    requires Counted(w) && !NeverFull(w, ops) && Run(w, ops).Some?
    ensures var w1 := Run(w, ops).value;
            i < |w1.users| && w1.users[i].isVchi && Broken(w1.users[i], p)
    decreases |ops|
  {
    hide Step;
    hide Counted;
    hide Broken;
    var w1 := Step(w, ops[0]).value;
    if HasRoom(w, ops[0]) {
      StepKeepsCounted(w, ops[0]);
      hide HasRoom;
      i, p := FullRunBreaks(w1, ops[1..]);
    } else {
      i := ops[0].i;
      FullRingBreaks(w, ops[0]);
      p := RunKeepsBroken(w1, ops[1..], i, w.users[i].remove);
    }
  }

  /** `n` dequeues of one service, one after the other. */
  function Takes(i: nat, n: nat): seq<Op> {
    if n == 0 then [] else [Take(i)] + Takes(i, n - 1)
  }

  lemma TakesFirst(w: World, i: nat, n: nat)
    requires Shaped(w) && n > 0
    ensures Run(w, Takes(i, n))
         == (if Step(w, Take(i)).None? then None else Run(Step(w, Take(i)).value, Takes(i, n - 1)))
  {
    hide Step;
    assert Takes(i, n)[1..] == Takes(i, n - 1);
  }

  lemma {:induction false} TakesSucceed(w: World, i: nat, n: nat)
    requires Shaped(w) && i < |w.users| && w.users[i].isVchi && InOrder(w, i) && Pending(w, i) <= MSG_QUEUE_SIZE
    ensures Run(w, Takes(i, n)).Some?
    decreases n
  {
    if n > 0 {
      TakesFirst(w, i, n);
      TakeInOrder(w, i);
      var w1 := Step(w, Take(i)).value;
      assert w1.users[i].isVchi && |w1.users| == |w.users|;
      hide Step;
      hide InOrder;
      TakesSucceed(w1, i, n - 1);
    }
  }

  /** Emptying a broken ring meets an empty cell. */
  lemma {:induction false} TakesFail(w: World, i: nat, p: nat)
    requires Shaped(w) && i < |w.users| && w.users[i].isVchi && Broken(w.users[i], p)
    ensures Run(w, Takes(i, Pending(w, i))).None?
    decreases Pending(w, i)
  {
    TakesFirst(w, i, Pending(w, i));
    if Step(w, Take(i)).Some? {
      var p' := TakeKeepsBroken(w, i, p, i);
      var w1 := Step(w, Take(i)).value;
      assert Pending(w1, i) == Pending(w, i) - 1;
      hide Step;
      TakesFail(w1, i, p');
    }
  }

  /** Every vchi service can be dequeued from as often as one likes. */
  ghost predicate DequeuesSucceed(w: World)
    requires Shaped(w)
  {
    forall i: nat, n: nat | i < |w.users| && w.users[i].isVchi :: Run(w, Takes(i, n)).Some?
  }

  /**
   * Exactly when no dequeue meets an empty cell: after any run, of any number and kind of services, all dequeues
   * succeed if and only if no callback of the run has met a full ring. What comes later does not repair a ring.
   */
  lemma DequeuesSucceedIff(ops: seq<Op>)
    requires Run(Start(), ops).Some?
    ensures DequeuesSucceed(Run(Start(), ops).value) <==> NeverFull(Start(), ops)
  {
    StartIsCounted();
    var w := Run(Start(), ops).value;
    if NeverFull(Start(), ops) {
      RunKeepsOrder(Start(), ops);
      forall i: nat, n: nat | i < |w.users| && w.users[i].isVchi ensures Run(w, Takes(i, n)).Some? {
        TakesSucceed(w, i, n);
      }
    } else {
      var i, p := FullRunBreaks(Start(), ops);
      TakesFail(w, i, p);
    }
  }

  // ----- exactly when a run keeps the messages in order -----

  /** Another message, accepted later, has come in place of message `p`: in the ring, or already out of it. */
  predicate Overwritten(w: World, i: nat, p: nat, q: nat) {
    && Shaped(w) && i < |w.users| && w.users[i].isVchi && p < q < |w.accepted[i]| && p <= |w.returned[i]|
    && if p < |w.returned[i]| then w.returned[i][p] == w.accepted[i][q]
       else w.users[i].cells[p % MSG_QUEUE_SIZE] == Some(w.accepted[i][q])
  }

  predicate Distinct(ms: seq<Msg>) {
    forall j, k | 0 <= j < k < |ms| :: ms[j] != ms[k]
  }

  lemma OverwrittenIsOutOfOrder(w: World, i: nat, p: nat, q: nat)
    requires Overwritten(w, i, p, q) && Distinct(w.accepted[i])
    ensures !InOrder(w, i)
  {
    if CountersOk(w, i) {
      var all := Somes(w.returned[i]) + InRing(w.users[i]);
      if p == |w.returned[i]| {
        assert all[p] == InRing(w.users[i])[0];
      }
      assert all[p] == Some(w.accepted[i][q]);
      assert Somes(w.accepted[i])[p] == Some(w.accepted[i][p]);
    }
  }

  /** A callback on a full ring takes the place of the oldest message. */
  lemma FullRingLoses(w: World, i: nat, m: Msg)
    requires Shaped(w) && i < |w.users| && w.users[i].isVchi && InOrder(w, i) && Pending(w, i) == MSG_QUEUE_SIZE
    requires Shaped(DeliverStep(w, i, m))
    ensures Overwritten(DeliverStep(w, i, m), i, |w.returned[i]|, |w.accepted[i]|)
  {
    hide Callback;
    CallbackInserts(w.users[i], w.c, m);
    SameCell(w.users[i].remove);
  }

  lemma DeliverKeepsOverwritten(w: World, i: nat, p: nat, q: nat, at: nat, m: Msg) returns (q': nat)
    requires Counted(w) && Overwritten(w, i, p, q) && at < |w.users| && Shaped(DeliverStep(w, at, m))
    ensures Overwritten(DeliverStep(w, at, m), i, p, q')
  {
    hide Callback;
    q' := q;
    if at == i {
      CallbackInserts(w.users[i], w.c, m);
      assert CountersOk(w, i);
      if |w.accepted[i]| % MSG_QUEUE_SIZE == p % MSG_QUEUE_SIZE && p == |w.returned[i]| {
        q' := |w.accepted[i]|;
      }
    }
  }

  lemma TakeKeepsOverwritten(w: World, i: nat, p: nat, q: nat, at: nat)
    requires Counted(w) && Overwritten(w, i, p, q) && Step(w, Take(at)).Some?
    ensures Overwritten(Step(w, Take(at)).value, i, p, q)
  {
    assert w.users[at].isVchi;
    assert CountersOk(w, at);
  }

  lemma StepKeepsOverwritten(w: World, op: Op, i: nat, p: nat, q: nat) returns (q': nat)
    requires Counted(w) && Overwritten(w, i, p, q) && Step(w, op).Some?
    ensures Overwritten(Step(w, op).value, i, p, q')
  {
    q' := q;
    if op.Deliver? {
      CallbackKeepsOwner(w.users[op.i], w.c, op.m);
      q' := DeliverKeepsOverwritten(w, i, p, q, op.i, op.m);
    }
    if op.Take? {
      TakeKeepsOverwritten(w, i, p, q, op.i);
    }
    hide Counted;
    hide Callback;
    hide Dequeue;
    hide Await;
  }

  lemma {:induction false} RunKeepsOverwritten(w: World, ops: seq<Op>, i: nat, p: nat, q: nat) returns (q': nat)
    requires Counted(w) && Overwritten(w, i, p, q) && Run(w, ops).Some?
    ensures Overwritten(Run(w, ops).value, i, p, q')
    decreases |ops|
  {
    hide Step;
    hide Counted;
    hide Overwritten;
    q' := q;
    if ops != [] {
      StepKeepsCounted(w, ops[0]);
      var q1 := StepKeepsOverwritten(w, ops[0], i, p, q);
      q' := RunKeepsOverwritten(Step(w, ops[0]).value, ops[1..], i, p, q1);
    }
  }

  lemma FullStepLoses(w: World, op: Op)
    requires AllInOrder(w) && Step(w, op).Some? && !HasRoom(w, op)
    ensures op.Deliver? && op.i < |w.returned| && op.i < |w.accepted|
    ensures Overwritten(Step(w, op).value, op.i, |w.returned[op.i]|, |w.accepted[op.i]|)
  {
    CallbackKeepsOwner(w.users[op.i], w.c, op.m);
    assert InOrder(w, op.i);
    FullRingLoses(w, op.i, op.m);
  }

  /** The first callback that meets a full ring leaves a message overwritten for the rest of the run. */
  lemma {:induction false} FullRunLoses(w: World, ops: seq<Op>) returns (i: nat, p: nat, q: nat)
    requires Counted(w) && AllInOrder(w) && !NeverFull(w, ops) && Run(w, ops).Some?
    ensures Overwritten(Run(w, ops).value, i, p, q)
    decreases |ops|
  {
    hide Step;
    hide Counted;
    hide AllInOrder;
    hide Overwritten;
    hide HasRoom;
    var w1 := Step(w, ops[0]).value;
    StepKeepsCounted(w, ops[0]);
    if HasRoom(w, ops[0]) {
      StepKeepsOrder(w, ops[0]);
      i, p, q := FullRunLoses(w1, ops[1..]);
    } else {
      FullStepLoses(w, ops[0]);
      i, p, q := ops[0].i, |w.returned[ops[0].i]|, |w.accepted[ops[0].i]|;
      q := RunKeepsOverwritten(w1, ops[1..], i, p, q);
    }
  }

  /** The vchi services' returned messages, followed by those in their rings, are the accepted ones, in order. */
  predicate InOrderForAll(w: World)
    requires Shaped(w)
  {
    forall i | 0 <= i < |w.users| && w.users[i].isVchi :: InOrder(w, i)
  }

  /** No two messages handed to a vchi service are equal. */
  predicate DistinctForAll(w: World)
    requires Shaped(w)
  {
    forall i | 0 <= i < |w.users| && w.users[i].isVchi :: Distinct(w.accepted[i])
  }

  /**
   * Exactly when a run keeps the messages of all vchi services in order, of any number and kind of services: where
   * their messages differ, if and only if no callback of the run has met a full ring. Nothing that happens later makes
   * up for it. Equal messages may hide a loss; DequeuesSucceedIff finds it all the same.
   */
  lemma MessagesInOrderIff(ops: seq<Op>)
    requires Run(Start(), ops).Some? && DistinctForAll(Run(Start(), ops).value)
    ensures InOrderForAll(Run(Start(), ops).value) <==> NeverFull(Start(), ops)
  {
    StartIsCounted();
    if NeverFull(Start(), ops) {
      RunKeepsOrder(Start(), ops);
    } else {
      var i, p, q := FullRunLoses(Start(), ops);
      OverwrittenIsOutOfOrder(Run(Start(), ops).value, i, p, q);
    }
  }

  // ----- a run that fills a ring -----

  /** A message unlike any with another number. */
  function Numbered(n: nat): Msg {
    Msg(0, seq(n, _ => 0))
  }

  function DeliverMany(n: nat): seq<Op> {
    if n == 0 then [] else DeliverMany(n - 1) + [Deliver(0, Numbered(n - 1))]
  }

  function AllNumbered(n: nat): (ms: seq<Msg>)
    ensures |ms| == n
  {
    seq(n, k requires 0 <= k => Numbered(k))
  }

  lemma NumberedDistinct(n: nat)
    ensures Distinct(AllNumbered(n)) && AllNumbered(n + 1) == AllNumbered(n) + [Numbered(n)]
  {
    forall j, k | 0 <= j < k < n ensures AllNumbered(n)[j] != AllNumbered(n)[k] {
      assert |AllNumbered(n)[j].data| == j && |AllNumbered(n)[k].data| == k;
    }
  }

  /** The only service has been handed the first `n` numbered messages, and nobody has taken one. */
  predicate Piled(w: World, n: nat)
    ensures Piled(w, n) ==> Shaped(w)
  {
    && AllInOrder(w) && |w.users| == 1 && w.users[0].isVchi && Pending(w, 0) == n && w.accepted[0] == AllNumbered(n)
  }

  lemma OneMorePiled(w: World, n: nat)
    requires Piled(w, n) && n < MSG_QUEUE_SIZE
    ensures var r := Step(w, Deliver(0, Numbered(n))); r.Some? && Piled(r.value, n + 1)
  {
    var op := Deliver(0, Numbered(n));
    CallbackKeepsOwner(w.users[0], w.c, Numbered(n));
    CallbackInserts(w.users[0], w.c, Numbered(n));
    StepKeepsOrder(w, op);
    NumberedDistinct(n);
    hide Callback;
    hide InOrder;
    hide AllNumbered;
  }

  lemma {:induction false} DeliverManyPiles(w: World, n: nat)
    requires Piled(w, 0) && n <= MSG_QUEUE_SIZE
    ensures var r := Run(w, DeliverMany(n)); r.Some? && Piled(r.value, n)
    decreases n
  {
    hide Piled;
    hide Step;
    if n > 0 {
      DeliverManyPiles(w, n - 1);
      var w1 := Run(w, DeliverMany(n - 1)).value;
      RunAppend(w, DeliverMany(n - 1), [Deliver(0, Numbered(n - 1))]);
      RunOne(w1, Deliver(0, Numbered(n - 1)));
      OneMorePiled(w1, n - 1);
    }
  }

  /** One service, 129 messages, and nobody who takes them. */
  function Neglected(): seq<Op> {
    [AddUser(true)] + (DeliverMany(MSG_QUEUE_SIZE) + [Deliver(0, Numbered(MSG_QUEUE_SIZE))])
  }

  lemma FullPileLoses(w: World)
    requires Piled(w, MSG_QUEUE_SIZE)
    ensures var r := Step(w, Deliver(0, Numbered(MSG_QUEUE_SIZE)));
            && r.Some? && |r.value.users| == 1 && r.value.users[0].isVchi
            && !InOrder(r.value, 0) && Distinct(r.value.accepted[0])
            && Broken(r.value.users[0], w.users[0].remove) && Pending(r.value, 0) == MSG_QUEUE_SIZE + 1
  {
    var m := Numbered(MSG_QUEUE_SIZE);
    CallbackKeepsOwner(w.users[0], w.c, m);
    CallbackInserts(w.users[0], w.c, m);
    NumberedDistinct(MSG_QUEUE_SIZE);
    NumberedDistinct(MSG_QUEUE_SIZE + 1);
    FullRingLoses(w, 0, m);
    hide Callback;
    hide Distinct;
    hide AllNumbered;
    var w1 := DeliverStep(w, 0, m);
    assert w1.accepted[0] == AllNumbered(MSG_QUEUE_SIZE + 1);
    OverwrittenIsOutOfOrder(w1, 0, |w.returned[0]|, |w.accepted[0]|);
  }

  /**
   * A run that fills a message ring: the 129th message loses the first, and the service can no longer be dequeued from
   * 129 times.
   */
  lemma NeglectedLoses()
    ensures !NeverFull(Start(), Neglected())
    ensures var before := Run(Start(), [AddUser(true)] + DeliverMany(MSG_QUEUE_SIZE));
            && before.Some? && |before.value.users| == 1
            && Pending(before.value, 0) == MSG_QUEUE_SIZE && InOrder(before.value, 0)
    ensures var after := Run(Start(), Neglected());
            && after.Some? && |after.value.users| == 1 && !InOrder(after.value, 0)
            && Run(after.value, Takes(0, MSG_QUEUE_SIZE + 1)).None?
  {
    var w := Step(Start(), AddUser(true)).value;
    var many, last := DeliverMany(MSG_QUEUE_SIZE), Deliver(0, Numbered(MSG_QUEUE_SIZE));
    OneUserStarts();
    DeliverManyPiles(w, MSG_QUEUE_SIZE);
    var w1 := Run(w, many).value;
    FullPileLoses(w1);
    RunOne(Start(), AddUser(true));
    RunOne(w1, last);
    RunAppend(Start(), [AddUser(true)], many);
    RunAppend(Start(), [AddUser(true)], many + [last]);
    RunAppend(w, many, [last]);
    hide Run;
    hide Step;
    hide InOrder;
    hide NeverFull;
    hide Distinct;
    hide Broken;
    TakesFail(Run(Start(), Neglected()).value, 0, w1.users[0].remove);
    MessagesInOrderIff(Neglected());
  }

  lemma OneUserStarts()
    ensures Step(Start(), AddUser(true)).Some? && Piled(Step(Start(), AddUser(true)).value, 0)
  {
    StartIsCounted();
    StepKeepsOrder(Start(), AddUser(true));
  }
}
