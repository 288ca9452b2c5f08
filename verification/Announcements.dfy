/** What is announced to the clients, told from the operations alone: every completion and every waiting dequeuer. */
module Announcements {
  import opened Config
  import opened SlotMessage
  import opened Rings
  import opened Worlds
  import opened MessageRings
  import Completions = Notifications

  // ----- what the operations say -----

  /** The messages handed to the callback of service `i`. */
  function Delivered(ops: seq<Op>, i: nat): seq<Msg> {
    if ops == [] then []
    else
      var last := ops[|ops| - 1];
      Delivered(ops[..|ops| - 1], i) + (if last.Deliver? && last.i == i then [last.m] else [])
  }

  /** How many of them no dequeue has taken; a dequeue takes one if there is one. */
  function Untaken(ops: seq<Op>, i: nat): nat {
    if ops == [] then 0
    else
      var n, last := Untaken(ops[..|ops| - 1], i), ops[|ops| - 1];
      if last.Deliver? && last.i == i then n + 1
      else if last == Take(i) && n > 0 then n - 1
      else n
  }

  /** The last dequeue or callback of service `i` was a dequeue that found nothing. */
  predicate StandsOpen(ops: seq<Op>, i: nat) {
    && ops != []
    && var init, last := ops[..|ops| - 1], ops[|ops| - 1];
       if last == Take(i) then Untaken(init, i) == 0
       else !(last.Deliver? && last.i == i) && StandsOpen(init, i)
  }

  /** What is left on the insert semaphore of a vchi service: callbacks raise it, dequeues in vain lower it. */
  function Inserts(ops: seq<Op>, i: nat): nat {
    if ops == [] then 0
    else
      var init, last := ops[..|ops| - 1], ops[|ops| - 1];
      var n := Inserts(init, i);
      if last.Deliver? && last.i == i then n + 1
      else if last == Take(i) && Untaken(init, i) == 0 && n > 0 then n - 1
      else n
  }

  /** And on its remove semaphore: dequeues that find a message raise it, callbacks that find the ring full lower it. */
  function Removes(ops: seq<Op>, i: nat): nat {
    if ops == [] then 0
    else
      var init, last := ops[..|ops| - 1], ops[|ops| - 1];
      var n := Removes(init, i);
      if last == Take(i) && Untaken(init, i) > 0 then n + 1
      else if last.Deliver? && last.i == i && Untaken(init, i) == MSG_QUEUE_SIZE && n > 0 then n - 1
      else n
  }

  lemma OneMoreRaises(ops: seq<Op>, op: Op, i: nat)
    ensures Inserts(ops + [op], i)
         == (if op.Deliver? && op.i == i then Inserts(ops, i) + 1
             else if op == Take(i) && Untaken(ops, i) == 0 && Inserts(ops, i) > 0 then Inserts(ops, i) - 1
             else Inserts(ops, i))
    ensures Removes(ops + [op], i)
         == (if op == Take(i) && Untaken(ops, i) > 0 then Removes(ops, i) + 1
             else if op.Deliver? && op.i == i && Untaken(ops, i) == MSG_QUEUE_SIZE && Removes(ops, i) > 0
             then Removes(ops, i) - 1
             else Removes(ops, i))
  {
    assert (ops + [op])[..|ops|] == ops;
  }

  lemma OneMore(ops: seq<Op>, op: Op, i: nat)
    ensures Delivered(ops + [op], i) == Delivered(ops, i) + (if op.Deliver? && op.i == i then [op.m] else [])
    ensures Untaken(ops + [op], i)
         == (if op.Deliver? && op.i == i then Untaken(ops, i) + 1
             else if op == Take(i) && Untaken(ops, i) > 0 then Untaken(ops, i) - 1
             else Untaken(ops, i))
    ensures StandsOpen(ops + [op], i)
         <==> (if op == Take(i) then Untaken(ops, i) == 0 else !(op.Deliver? && op.i == i) && StandsOpen(ops, i))
  {
    assert (ops + [op])[..|ops|] == ops;
  }

  /** The completions of service `i` among `es`. */
  function Of(es: seq<Entry>, i: nat): seq<Entry> {
    if es == [] then []
    else Of(es[..|es| - 1], i) + (if es[|es| - 1].owner == i then [es[|es| - 1]] else [])
  }

  lemma OfOneMore(es: seq<Entry>, e: Entry, i: nat)
    ensures Of(es + [e], i) == Of(es, i) + (if e.owner == i then [e] else [])
  {
    assert (es + [e])[..|es|] == es;
  }

  /** One completion for each message. */
  function ForEach(ms: seq<Msg>, i: nat): (es: seq<Entry>)
    ensures |es| == |ms|
  {
    seq(|ms|, k requires 0 <= k < |ms| => Entry(MESSAGE_AVAILABLE, Some(ms[k]), i))
  }

  // ----- what the rings say -----

  /** A completion of service `i` is queued. */
  predicate Queued(w: World, i: nat) {
    exists p | w.c.remove <= p < |w.posted| :: w.posted[p].owner == i
  }

  /** Flag, counters and completions of service `i` are as the operations say. */
  predicate AsTold(w: World, ops: seq<Op>, i: nat)
    requires Shaped(w)
  {
    if i < |w.users| then
      && w.accepted[i] == Delivered(ops, i)
      && (w.users[i].dequeuePending <==> StandsOpen(ops, i))
      && (if w.users[i].isVchi then MessageRings.Pending(w, i) == Untaken(ops, i)
          else Of(w.posted, i) == ForEach(Delivered(ops, i), i) && !StandsOpen(ops, i))
    else Delivered(ops, i) == [] && Untaken(ops, i) == 0 && !StandsOpen(ops, i) && Of(w.posted, i) == []
  }

  /** No service has posted anything after the completion it remembers. */
  predicate Latest(w: World)
    ensures Latest(w) ==> Completions.PostedOk(w)
  {
    && Completions.PostedOk(w)
    && forall p | 0 <= p < |w.posted| ::
         w.posted[p].owner < |w.users| && p <= w.users[w.posted[p].owner].availablePos
  }

  /** The completion posted for message `m` of service `i`, if any: what a callback should post. */
  function Announced(w: World, ops: seq<Op>, i: nat, m: Msg): seq<Entry>
    requires i < |w.users|
  {
    if !w.users[i].isVchi then [Entry(MESSAGE_AVAILABLE, Some(m), i)]
    else if Queued(w, i) || StandsOpen(ops, i) then []
    else [Entry(MESSAGE_AVAILABLE, if Untaken(ops, i) == MSG_QUEUE_SIZE then None else Some(m), i)]
  }

  lemma QueuedIsRemembered(w: World, i: nat)
    requires Latest(w) && i < |w.users|
    ensures Queued(w, i) <==> w.users[i].availablePos >= w.c.remove
  {
  }

  lemma CallbackPosts(w: World, ops: seq<Op>, i: nat, m: Msg)
    requires Latest(w) && Counted(w) && i < |w.users| && AsTold(w, ops, i)
    ensures Shaped(DeliverStep(w, i, m))
    ensures var w1 := DeliverStep(w, i, m);
            && w1.posted == w.posted + Announced(w, ops, i, m) && w1.c.remove == w.c.remove
            && (forall j | 0 <= j < |w.users| && j != i :: w1.users[j] == w.users[j])
            && w1.users[i].availablePos
               == (if Announced(w, ops, i, m) == [] then w.users[i].availablePos else |w.posted|)
            && w1.users[i].isVchi == w.users[i].isVchi && !w1.users[i].dequeuePending
  {
    QueuedIsRemembered(w, i);
    CallbackKeepsOwner(w.users[i], w.c, m);
    CallbackAnnounces(w.users[i], w.c, m);
    assert w.users[i].isVchi ==> CountersOk(w, i);
    hide Callback;
    hide Latest;
    hide Queued;
  }

  // ----- every step -----

  /** What a callback leaves as it is for the other services. */
  lemma OthersStayTold(w: World, ops: seq<Op>, i: nat, m: Msg, j: nat)
    requires Latest(w) && Counted(w) && i < |w.users| && AsTold(w, ops, i) && AsTold(w, ops, j) && j != i
    ensures Shaped(DeliverStep(w, i, m)) && AsTold(DeliverStep(w, i, m), ops + [Deliver(i, m)], j)
  {
    CallbackPosts(w, ops, i, m);
    OneMore(ops, Deliver(i, m), j);
    PostsKeepOthers(w, ops, i, m, j);
    hide Callback;
    hide Announced;
    hide StandsOpen;
    hide Delivered;
    hide Untaken;
    hide Of;
    hide ForEach;
    hide Latest;
    hide Counted;
  }

  lemma PostsKeepOthers(w: World, ops: seq<Op>, i: nat, m: Msg, j: nat)
    requires i < |w.users| && j != i
    ensures Of(w.posted + Announced(w, ops, i, m), j) == Of(w.posted, j)
  {
    hide Queued;
    hide StandsOpen;
    var posts := Announced(w, ops, i, m);
    if posts == [] {
      assert w.posted + posts == w.posted;
    } else {
      OfOneMore(w.posted, posts[0], j);
    }
  }

  lemma DeliverIsTold(w: World, ops: seq<Op>, i: nat, m: Msg)
    requires Latest(w) && Counted(w) && i < |w.users| && AsTold(w, ops, i)
    ensures Shaped(DeliverStep(w, i, m)) && AsTold(DeliverStep(w, i, m), ops + [Deliver(i, m)], i)
  {
    var u := w.users[i];
    CallbackPosts(w, ops, i, m);
    OneMore(ops, Deliver(i, m), i);
    hide Latest;
    if u.isVchi {
      CallbackInserts(u, w.c, m);
    } else {
      AlwaysAnnounced(w, ops, i, m);
      OfOneMore(w.posted, Entry(MESSAGE_AVAILABLE, Some(m), i), i);
      assert ForEach(Delivered(ops, i) + [m], i)
          == ForEach(Delivered(ops, i), i) + [Entry(MESSAGE_AVAILABLE, Some(m), i)];
    }
    hide Callback;
    hide Announced;
    hide Counted;
  }

  lemma AlwaysAnnounced(w: World, ops: seq<Op>, i: nat, m: Msg)
    requires i < |w.users| && !w.users[i].isVchi
    ensures Announced(w, ops, i, m) == [Entry(MESSAGE_AVAILABLE, Some(m), i)]
  {
  }

  lemma DeliverKeepsLatest(w: World, ops: seq<Op>, i: nat, m: Msg)
    requires Latest(w) && Counted(w) && i < |w.users| && AsTold(w, ops, i)
    ensures Shaped(DeliverStep(w, i, m)) && Latest(DeliverStep(w, i, m))
  {
    CallbackPosts(w, ops, i, m);
    Completions.DeliverPosts(w, i, m);
    hide Callback;
    hide AsTold;
    hide DeliverStep;
  }

  lemma OtherIsTold(w: World, ops: seq<Op>, op: Op, j: nat)
    requires Counted(w) && AsTold(w, ops, j) && !op.Deliver? && Step(w, op).Some?
    ensures AsTold(Step(w, op).value, ops + [op], j)
  {
    OneMore(ops, op, j);
    hide Await;
    if op.Take? && op.i == j {
      assert CountersOk(w, j);
    }
  }

  /** Everything is as the operations say. */
  ghost predicate AllTold(w: World, ops: seq<Op>)
    ensures AllTold(w, ops) ==> Shaped(w)
  {
    Latest(w) && Counted(w) && forall i: nat :: AsTold(w, ops, i)
  }

  lemma StepIsTold(w: World, ops: seq<Op>, op: Op)
    requires AllTold(w, ops) && Step(w, op).Some?
    ensures AllTold(Step(w, op).value, ops + [op])
  {
    StepKeepsCounted(w, op);
    Completions.StepKeepsPosted(w, op);
    if op.Deliver? {
      DeliverKeepsLatest(w, ops, op.i, op.m);
    }
    hide AsTold;
    forall j: nat ensures AsTold(Step(w, op).value, ops + [op], j) {
      if op.Deliver? {
        if j == op.i { DeliverIsTold(w, ops, j, op.m); } else { OthersStayTold(w, ops, op.i, op.m, j); }
      } else {
        OtherIsTold(w, ops, op, j);
      }
    }
    hide Callback;
    hide Counted;
    hide Completions.PostedOk;
    if op.Collect? {
      Completions.CollectMoves(w, op.count);
    }
    hide Await;
  }

  /** The last step of a run. */
  lemma RunOneMore(ops: seq<Op>)
    requires ops != [] && Run(Start(), ops).Some?
    ensures var init := ops[..|ops| - 1];
            Run(Start(), init).Some? && Step(Run(Start(), init).value, ops[|ops| - 1]) == Run(Start(), ops)
  {
    var init, last := ops[..|ops| - 1], ops[|ops| - 1];
    assert init + [last] == ops;
    RunAppend(Start(), init, [last]);
    if Run(Start(), init).Some? {
      RunOne(Run(Start(), init).value, last);
    }
  }

  lemma {:induction false} RunIsTold(ops: seq<Op>)
    requires Run(Start(), ops).Some?
    ensures AllTold(Run(Start(), ops).value, ops)
    decreases |ops|
  {
    hide Step;
    if ops == [] {
      StartIsCounted();
    } else {
      hide AllTold;
      hide Run;
      var init := ops[..|ops| - 1];
      RunOneMore(ops);
      RunIsTold(init);
      StepIsTold(Run(Start(), init).value, init, ops[|ops| - 1]);
      assert init + [ops[|ops| - 1]] == ops;
    }
  }

  // ----- every run -----

  /**
   * Who is marked as waiting. After every run a vchi service's dequeuer is marked if and only if the service's last
   * dequeue or callback was a dequeue that found nothing, and as many messages wait for it as the operations left.
   */
  lemma WaitingIff(ops: seq<Op>, i: nat)
    requires Run(Start(), ops).Some?
    requires i < |Run(Start(), ops).value.users| && Run(Start(), ops).value.users[i].isVchi
    ensures var w := Run(Start(), ops).value;
            && (w.users[i].dequeuePending <==> StandsOpen(ops, i))
            && w.accepted[i] == Delivered(ops, i) && MessageRings.Pending(w, i) == Untaken(ops, i)
  {
    RunIsTold(ops);
    assert AsTold(Run(Start(), ops).value, ops, i);
  }

  /**
   * What every callback posts. A service that is not vchi gets one completion for every message, with the message in
   * it. A vchi service gets none exactly when one of its completions is queued or a dequeue stands open, which is then
   * released; otherwise it gets one with the message in it, or without if the message ring is full.
   */
  lemma CallbackPostsIff(ops: seq<Op>, i: nat, m: Msg)
    requires Run(Start(), ops).Some? && i < |Run(Start(), ops).value.users|
    ensures var w, r := Run(Start(), ops).value, Run(Start(), ops + [Deliver(i, m)]);
            && r.Some? && var u := w.users[i];
            && r.value.posted == w.posted + (
                 if !u.isVchi then [Entry(MESSAGE_AVAILABLE, Some(m), i)]
                 else if Queued(w, i) || StandsOpen(ops, i) then []
                 else if Untaken(ops, i) == MSG_QUEUE_SIZE then [Entry(MESSAGE_AVAILABLE, None, i)]
                 else [Entry(MESSAGE_AVAILABLE, Some(m), i)])
            && r.value.released == (
                 if StandsOpen(ops, i) then w.released[i := w.released[i] + {|Delivered(ops, i)|}] else w.released)
  {
    RunIsTold(ops);
    var w := Run(Start(), ops).value;
    assert AsTold(w, ops, i);
    CallbackPosts(w, ops, i, m);
    RunAppend(Start(), ops, [Deliver(i, m)]);
    RunOne(w, Deliver(i, m));
    hide Run;
    hide Callback;
    hide Latest;
    hide Counted;
  }

  /** Over every run a service that is not vchi has one completion posted for each message, with it, in order. */
  lemma OthersGetEachMessage(ops: seq<Op>, i: nat)
    requires Run(Start(), ops).Some?
    requires i < |Run(Start(), ops).value.users| && !Run(Start(), ops).value.users[i].isVchi
    ensures var w := Run(Start(), ops).value;
            w.accepted[i] == Delivered(ops, i) && Of(w.posted, i) == ForEach(Delivered(ops, i), i)
  {
    RunIsTold(ops);
    assert AsTold(Run(Start(), ops).value, ops, i);
  }

  lemma {:induction false} OfAppend(a: seq<Entry>, b: seq<Entry>, i: nat)
    ensures Of(a + b, i) == Of(a, i) + Of(b, i)
    decreases |b|
  {
    if b == [] {
      assert a + b == a;
    } else {
      var init := b[..|b| - 1];
      assert a + b == a + init + [b[|b| - 1]];
      OfAppend(a, init, i);
      OfOneMore(a + init, b[|b| - 1], i);
    }
  }

  /**
   * Delivery through the completion ring. After every run that never posts to a full one, what has been drained for a
   * service that is not vchi, followed by what lies in the ring for it, is one completion for each of its messages,
   * with the message in it, in order, none lost or doubled.
   */
  lemma OthersDelivered(ops: seq<Op>, i: nat)
    requires Run(Start(), ops).Some? && Completions.NeverOverrun(Start(), ops)
    requires i < |Run(Start(), ops).value.users| && !Run(Start(), ops).value.users[i].isVchi
    ensures var w := Run(Start(), ops).value;
            && w.c.remove <= w.c.insert == |w.posted|
            && (forall p | w.c.remove <= p < w.c.insert :: w.c.cells[p % MAX_COMPLETIONS] == Some(w.posted[p]))
            && Of(w.drained, i) + Of(w.posted[w.c.remove..], i) == ForEach(Delivered(ops, i), i)
  {
    var w := Run(Start(), ops).value;
    OthersGetEachMessage(ops, i);
    Completions.CompletionsInOrder(ops);
    assert w.posted[..w.c.remove] + w.posted[w.c.remove..] == w.posted;
    OfAppend(w.drained, w.posted[w.c.remove..], i);
  }

  // ----- the semaphores -----

  /** The semaphores of a service: those of a vchi service as the operations say, those of any other at rest. */
  predicate RaisedAsTold(w: World, ops: seq<Op>, i: nat) {
    if i < |w.users| then
      if w.users[i].isVchi
      then w.users[i].insertEvent == Inserts(ops, i) && w.users[i].removeEvent == Removes(ops, i)
      else w.users[i].insertEvent == 0 && w.users[i].removeEvent == 0
    else Inserts(ops, i) == 0 && Removes(ops, i) == 0
  }

  /** The completion ring's: one is raised as long as a completion is queued, and nothing raises the other. */
  predicate RingRaised(w: World) {
    w.c.removeEvent == 0 && (w.c.remove < w.c.insert ==> w.c.insertEvent > 0)
  }

  lemma CallbackRaises(u: User, c: Completion, m: Msg)
    requires UserSized(u) && CompletionSized(c)
    ensures var (c1, u1) := Callback(u, c, MESSAGE_AVAILABLE, Some(m));
            && (c.removeEvent == 0 ==> c1.removeEvent == 0)
            && (c1.insert - c.insert == c1.insertEvent - c.insertEvent >= 0) && c1.remove == c.remove
            && (!u.isVchi ==> u1.insertEvent == u.insertEvent && u1.removeEvent == u.removeEvent)
            && (u.isVchi ==>
                  && u1.insertEvent == u.insertEvent + 1
                  && u1.removeEvent == (if u.insert == u.remove + MSG_QUEUE_SIZE && u.removeEvent > 0
                                        then u.removeEvent - 1 else u.removeEvent))
  {
  }

  lemma {:induction false} TakeOldestKeepsEvents(c: Completion, count: nat)
    requires CompletionSized(c) && TakeOldest(c, count).Some?
    ensures var c1 := TakeOldest(c, count).value.0;
            c1.insert == c.insert && c1.insertEvent == c.insertEvent && c1.removeEvent == c.removeEvent
    decreases count
  {
    if count > 0 && c.remove != c.insert {
      var at := c.remove % MAX_COMPLETIONS;
      TakeOldestKeepsEvents(c.(remove := c.remove + 1, cells := c.cells[at := None]), count - 1);
    }
  }

  lemma DeliverRaises(w: World, ops: seq<Op>, i: nat, m: Msg, j: nat)
    requires Counted(w) && i < |w.users| && AsTold(w, ops, i) && RaisedAsTold(w, ops, j)
    requires j < |w.users| ==> AsTold(w, ops, j)
    ensures RaisedAsTold(DeliverStep(w, i, m), ops + [Deliver(i, m)], j)
  {
    OneMoreRaises(ops, Deliver(i, m), j);
    CallbackRaises(w.users[i], w.c, m);
    CallbackAnnouncesKind(w.users[i], w.c, m);
    hide Callback;
    assert w.users[i].isVchi ==> CountersOk(w, i);
  }

  lemma CallbackAnnouncesKind(u: User, c: Completion, m: Msg)
    requires UserSized(u) && CompletionSized(c)
    ensures Callback(u, c, MESSAGE_AVAILABLE, Some(m)).1.isVchi == u.isVchi
  {
  }

  lemma OtherRaises(w: World, ops: seq<Op>, op: Op, j: nat)
    requires Counted(w) && !op.Deliver? && Step(w, op).Some? && RaisedAsTold(w, ops, j)
    requires AsTold(w, ops, j)
    ensures RaisedAsTold(Step(w, op).value, ops + [op], j)
  {
    OneMoreRaises(ops, op, j);
    hide Await;
    if op.Take? && op.i == j {
      assert CountersOk(w, j);
    }
  }

  lemma StepKeepsRingRaised(w: World, op: Op)
    requires Completions.PostedOk(w) && RingRaised(w) && Step(w, op).Some?
    ensures RingRaised(Step(w, op).value)
  {
    if op.Deliver? {
      CallbackRaises(w.users[op.i], w.c, op.m);
    }
    if op.Collect? && w.c.remove != w.c.insert {
      TakeOldestKeepsEvents(w.c, op.count);
      Completions.CollectMoves(w, op.count);
    }
    hide Callback;
    hide TakeOldest;
  }

  lemma {:induction false} RunRaises(ops: seq<Op>)
    requires Run(Start(), ops).Some?
    ensures var w := Run(Start(), ops).value; RingRaised(w) && forall i: nat :: RaisedAsTold(w, ops, i)
    decreases |ops|
  {
    hide Step;
    if ops != [] {
      hide Run;
      var init, last := ops[..|ops| - 1], ops[|ops| - 1];
      RunOneMore(ops);
      RunRaises(init);
      RunIsTold(init);
      StepRaises(Run(Start(), init).value, init, last);
      assert init + [last] == ops;
    }
  }

  lemma StepRaises(w: World, ops: seq<Op>, op: Op)
    requires AllTold(w, ops) && Step(w, op).Some? && RingRaised(w) && forall i: nat :: RaisedAsTold(w, ops, i)
    ensures var w1 := Step(w, op).value; RingRaised(w1) && forall i: nat :: RaisedAsTold(w1, ops + [op], i)
  {
    StepKeepsRingRaised(w, op);
    hide RaisedAsTold;
    hide RingRaised;
    hide AsTold;
    forall i: nat ensures RaisedAsTold(Step(w, op).value, ops + [op], i) {
      if op.Deliver? { DeliverRaises(w, ops, op.i, op.m, i); } else { OtherRaises(w, ops, op, i); }
    }
    hide Step;
  }

  /**
   * What the semaphores count. After every run, full rings or not, a vchi service's are what the operations left on
   * them, and the first is raised while the service has a message; the completion ring's first is raised while a
   * completion is queued, and nothing ever raises its other one.
   */
  lemma EventsRaised(ops: seq<Op>, i: nat)
    requires Run(Start(), ops).Some? && i < |Run(Start(), ops).value.users|
    ensures var w := Run(Start(), ops).value;
            var u := w.users[i];
            && w.c.removeEvent == 0 && (w.c.remove < w.c.insert ==> w.c.insertEvent > 0)
            && (if u.isVchi
                then
                  && u.insertEvent == Inserts(ops, i) && u.removeEvent == Removes(ops, i)
                  && (Untaken(ops, i) > 0 ==> Inserts(ops, i) > 0)
                else u.insertEvent == 0 && u.removeEvent == 0)
  {
    RunRaises(ops);
    UntakenAreRaised(ops, i);
    assert RaisedAsTold(Run(Start(), ops).value, ops, i);
  }

  lemma {:induction false} UntakenAreRaised(ops: seq<Op>, i: nat)
    ensures Untaken(ops, i) > 0 ==> Inserts(ops, i) > 0
    decreases |ops|
  {
    if ops != [] {
      UntakenAreRaised(ops[..|ops| - 1], i);
    }
  }

  /** A drain of an empty ring waits, and takes one count of the completion ring's insert semaphore, if there is one. */
  lemma EmptyDrainWaits(w: World, count: nat)
    requires Shaped(w) && w.c.remove == w.c.insert
    ensures var w1 := Step(w, Collect(count));
            && w1.Some? && w1.value.drained == w.drained && w1.value.seen == w.seen
            && w1.value.c == w.c.(insertEvent := if w.c.insertEvent > 0 then w.c.insertEvent - 1 else 0)
  {
    assert w.drained + [] == w.drained;
  }
}
