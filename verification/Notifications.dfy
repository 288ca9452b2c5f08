/**
 * The completion ring all services share: exactly when it holds what was posted and not drained, exactly when a drain
 * meets an empty cell, and that no notification is lost as long as it does not overflow.
 */
module Notifications {
  import opened Config
  import opened SlotMessage
  import opened Rings
  import opened Worlds

  // ----- positions -----

  /** Every service remembers the position of the last completion it posted. */
  predicate PostedOk(w: World)
    ensures PostedOk(w) ==> Shaped(w)
  {
    && Shaped(w) && w.c.insert == |w.posted| && w.c.remove <= w.c.insert
    && forall i | 0 <= i < |w.users| ::
         var p := w.users[i].availablePos;
         -1 <= p < w.c.insert && (p >= 0 ==> w.posted[p].owner == i)
  }

  /** A drain, where it meets no empty cell, moves towards the newest completion and adds none. */
  lemma {:induction false} TakeOldestMoves(c: Completion, count: nat)
    requires CompletionSized(c) && c.remove <= c.insert && TakeOldest(c, count).Some?
    ensures var (c1, es) := TakeOldest(c, count).value;
            c1.insert == c.insert && c1.remove == c.remove + |es| <= c.insert && |es| == Min(count, c.insert - c.remove)
    decreases count
  {
    if count > 0 && c.remove != c.insert {
      var at := c.remove % MAX_COMPLETIONS;
      TakeOldestMoves(c.(remove := c.remove + 1, cells := c.cells[at := None]), count - 1);
    }
  }

  lemma CollectMoves(w: World, count: nat)
    requires PostedOk(w) && Step(w, Collect(count)).Some?
    ensures var w1 := Step(w, Collect(count)).value;
            && w1.c.insert == w.c.insert && w.c.remove <= w1.c.remove <= w1.c.insert
            && w1.users == w.users && w1.posted == w.posted
  {
    if w.c.remove != w.c.insert {
      TakeOldestMoves(w.c, count);
    }
  }

  /** What a callback does to the histories, of whatever kind its service is. */
  lemma DeliverPosts(w: World, i: nat, m: Msg)
    requires PostedOk(w) && i < |w.users|
    ensures PostedOk(DeliverStep(w, i, m))
    ensures var w1 := DeliverStep(w, i, m);
            && w1.c.remove == w.c.remove && w1.drained == w.drained && |w1.users| == |w.users|
            && (forall j | 0 <= j < |w.users| && j != i :: w1.users[j] == w.users[j])
            && w1.users[i].isVchi == w.users[i].isVchi
            && if |w1.posted| == |w.posted|
               then
                 && w1.posted == w.posted && w1.c.cells == w.c.cells
                 && w1.users[i].availablePos == w.users[i].availablePos
                 && (w.users[i].availablePos >= w.c.remove || w.users[i].dequeuePending)
               else
                 && |w1.posted| == |w.posted| + 1 && w1.posted[..|w.posted|] == w.posted
                 && w1.posted[|w.posted|].owner == i && w1.users[i].availablePos == w.c.insert
                 && (w.users[i].isVchi ==> w.users[i].availablePos < w.c.remove)
                 && w1.c.cells == w.c.cells[w.c.insert % MAX_COMPLETIONS := Some(w1.posted[|w.posted|])]
  {
    hide Callback;
    CallbackKeepsOwner(w.users[i], w.c, m);
    CallbackAnnounces(w.users[i], w.c, m);
  }

  lemma StepKeepsPosted(w: World, op: Op)
    requires PostedOk(w) && Step(w, op).Some?
    ensures PostedOk(Step(w, op).value)
  {
    if op.Deliver? {
      DeliverPosts(w, op.i, op.m);
    }
    if op.Collect? {
      CollectMoves(w, op.count);
    }
    hide Callback;
    hide Await;
  }

  // ----- the ring while it does not overflow -----

  /** No more completions are queued than the ring has cells. */
  predicate Fits(w: World) {
    w.c.insert - w.c.remove <= MAX_COMPLETIONS
  }

  /** No callback of the run posts to a full completion ring. */
  predicate NeverOverrun(w: World, ops: seq<Op>)
    requires Shaped(w)
    decreases |ops|
  {
    ops != [] && Step(w, ops[0]).Some? ==>
      Fits(Step(w, ops[0]).value) && NeverOverrun(Step(w, ops[0]).value, ops[1..])
  }

  predicate Holds(c: Completion, posted: seq<Entry>) {
    && CompletionSized(c) && c.insert == |posted| && c.remove <= c.insert <= c.remove + MAX_COMPLETIONS
    && forall p | c.remove <= p < c.insert :: c.cells[p % MAX_COMPLETIONS] == Some(posted[p])
  }

  /** The ring holds exactly the completions not drained yet. */
  predicate RingOk(w: World) {
    Holds(w.c, w.posted) && w.drained == w.posted[..w.c.remove]
  }

  /** A drain of a ring that holds what was posted meets no empty cell, and returns the oldest completions. */
  lemma {:induction false} DrainReturnsOldest(c: Completion, count: nat, posted: seq<Entry>)
    requires Holds(c, posted)
    ensures var n := Min(count, c.insert - c.remove);
            var r := TakeOldest(c, count);
            && r.Some? && r.value.1 == posted[c.remove..c.remove + n]
            && Holds(r.value.0, posted) && r.value.0.remove == c.remove + n
    decreases count
  {
    if count > 0 && c.remove < c.insert {
      var at := c.remove % MAX_COMPLETIONS;
      var c1 := c.(remove := c.remove + 1, cells := c.cells[at := None]);
      forall p | c1.remove <= p < c1.insert
        ensures c1.cells[p % MAX_COMPLETIONS] == Some(posted[p])
      {
        CellsApart(c.remove, p);
      }
      DrainReturnsOldest(c1, count - 1, posted);
      var n := Min(count, c.insert - c.remove);
      assert posted[c.remove..c.remove + n] == [posted[c.remove]] + posted[c.remove + 1..c.remove + n];
    }
  }

  lemma AwaitReturnsOldest(c: Completion, count: nat, posted: seq<Entry>)
    requires Holds(c, posted)
    ensures var n := Min(count, c.insert - c.remove);
            var r := Await(c, count);
            && r.Some? && r.value.1 == posted[c.remove..c.remove + n]
            && Holds(r.value.0, posted) && r.value.0.remove == c.remove + n
  {
    if c.remove != c.insert {
      DrainReturnsOldest(c, count, posted);
    }
  }

  lemma CollectKeepsRing(w: World, count: nat)
    requires PostedOk(w) && RingOk(w)
    ensures Step(w, Collect(count)).Some?
    ensures var w1 := Step(w, Collect(count)).value;
            && RingOk(w1) && w1.posted == w.posted
            && w1.c.remove == w.c.remove + Min(count, w.c.insert - w.c.remove)
            && w1.seen == SeenAfter(w, w.posted[w.c.remove..w1.c.remove])
  {
    AwaitReturnsOldest(w.c, count, w.posted);
    var w1 := Step(w, Collect(count)).value;
    assert w.posted[..w.c.remove] + w.posted[w.c.remove..w1.c.remove] == w.posted[..w1.c.remove];
  }

  lemma DeliverKeepsRing(w: World, i: nat, m: Msg)
    requires PostedOk(w) && RingOk(w) && i < |w.users| && Fits(DeliverStep(w, i, m))
    ensures RingOk(DeliverStep(w, i, m))
  {
    DeliverPosts(w, i, m);
    var w1 := DeliverStep(w, i, m);
    hide DeliverStep;
    forall p | w1.c.remove <= p < w1.c.insert
      ensures w1.c.cells[p % MAX_COMPLETIONS] == Some(w1.posted[p])
    {
      if p < w.c.insert {
        assert w1.posted[p] == w.posted[p];
        if w1.c.insert > w.c.insert {
          CellsApart(p, w.c.insert);
        }
      }
    }
    assert w1.posted[..w.c.remove] == w.posted[..w.c.remove];
  }

  lemma StepKeepsRing(w: World, op: Op)
    requires PostedOk(w) && RingOk(w) && Step(w, op).Some? && Fits(Step(w, op).value)
    ensures RingOk(Step(w, op).value)
  {
    if op.Deliver? {
      DeliverKeepsRing(w, op.i, op.m);
    }
    if op.Collect? {
      CollectKeepsRing(w, op.count);
    }
    hide Callback;
    hide Await;
    hide Holds;
  }

  // ----- no lost notification -----

  /**
   * A message inserted since the service's last notification was drained has released a dequeuer, or a
   * notification of the service is still queued.
   */
  predicate Notified(w: World, i: nat)
    requires Shaped(w) && i < |w.users|
  {
    && w.seen[i] <= |w.accepted[i]|
    && forall k | w.seen[i] <= k < |w.accepted[i]| :: k in w.released[i] || w.users[i].availablePos >= w.c.remove
  }

  predicate AllNotified(w: World)
    requires Shaped(w)
  {
    forall i | 0 <= i < |w.users| :: Notified(w, i)
  }

  lemma DeliverKeepsNotified(w: World, i: nat, m: Msg)
    requires PostedOk(w) && AllNotified(w) && i < |w.users|
    ensures AllNotified(DeliverStep(w, i, m))
  {
    DeliverPosts(w, i, m);
    hide Callback;
    hide PostedOk;
    var w1 := DeliverStep(w, i, m);
    forall j | 0 <= j < |w1.users| ensures Notified(w1, j) {
      assert Notified(w, j);
    }
  }

  lemma CollectKeepsNotified(w: World, count: nat)
    requires PostedOk(w) && RingOk(w) && AllNotified(w)
    ensures Step(w, Collect(count)).Some? && AllNotified(Step(w, Collect(count)).value)
  {
    CollectKeepsRing(w, count);
    CollectMoves(w, count);
    var w1 := Step(w, Collect(count)).value;
    hide Await;
    hide RingOk;
    forall i | 0 <= i < |w1.users| ensures Notified(w1, i) {
      assert Notified(w, i);
      var p := w.users[i].availablePos;
      if w.c.remove <= p < w1.c.remove {
        // the notification has just been drained
        var es := w.posted[w.c.remove..w1.c.remove];
        assert es[p - w.c.remove] == w.posted[p];
        assert w.posted[p] in es && w.posted[p].owner == i;
      }
    }
  }

  lemma StepKeepsNotified(w: World, op: Op)
    requires PostedOk(w) && RingOk(w) && AllNotified(w) && Step(w, op).Some?
    ensures AllNotified(Step(w, op).value)
  {
    if op.Deliver? {
      DeliverKeepsNotified(w, op.i, op.m);
    } else if op.Collect? {
      CollectKeepsNotified(w, op.count);
    } else {
      hide PostedOk;
      hide RingOk;
      hide Dequeue;
      var w1 := Step(w, op).value;
      forall i | 0 <= i < |w1.users| ensures Notified(w1, i) {
        assert i < |w.users| ==> Notified(w, i);
      }
    }
  }

  lemma {:induction false} RunKeepsRing(w: World, ops: seq<Op>)
    requires PostedOk(w) && RingOk(w) && AllNotified(w) && NeverOverrun(w, ops) && Run(w, ops).Some?
    ensures var w1 := Run(w, ops).value; PostedOk(w1) && RingOk(w1) && AllNotified(w1)
    decreases |ops|
  {
    hide Step;
    hide PostedOk;
    hide RingOk;
    hide AllNotified;
    if ops != [] {
      StepKeepsPosted(w, ops[0]);
      StepKeepsRing(w, ops[0]);
      StepKeepsNotified(w, ops[0]);
      RunKeepsRing(Step(w, ops[0]).value, ops[1..]);
    }
  }

  lemma StartIsOk()
    ensures PostedOk(Start()) && RingOk(Start()) && AllNotified(Start())
  {
  }

  /**
   * No notification is lost. After every run that never posts to a full ring, of any number and kind of services: a
   * message of a service was accepted before its last drained notification, so that the client knows of it, or
   * released a dequeuer, or a notification of the service is queued, in its cell.
   */
  lemma NoLostNotification(ops: seq<Op>, i: nat, k: nat)
    requires Run(Start(), ops).Some? && NeverOverrun(Start(), ops)
    requires i < |Run(Start(), ops).value.users| && k < |Run(Start(), ops).value.accepted[i]|
    ensures var w := Run(Start(), ops).value;
            var u := w.users[i];
            || k < w.seen[i]
            || k in w.released[i]
            || (w.c.remove <= u.availablePos < |w.posted| == w.c.insert
                && w.posted[u.availablePos].owner == i
                && w.c.cells[u.availablePos % MAX_COMPLETIONS] == Some(w.posted[u.availablePos]))
  {
    StartIsOk();
    RunKeepsRing(Start(), ops);
    assert Notified(Run(Start(), ops).value, i);
  }

  /** Then, too, what await_completion has returned is what was posted, oldest first, and the rest is in the ring. */
  lemma CompletionsInOrder(ops: seq<Op>)
    requires Run(Start(), ops).Some? && NeverOverrun(Start(), ops)
    ensures var w := Run(Start(), ops).value;
            && w.c.remove <= w.c.insert == |w.posted| && w.drained == w.posted[..w.c.remove]
            && w.c.insert - w.c.remove <= MAX_COMPLETIONS
            && forall p | w.c.remove <= p < w.c.insert :: w.c.cells[p % MAX_COMPLETIONS] == Some(w.posted[p])
  {
    StartIsOk();
    RunKeepsRing(Start(), ops);
  }

  // ----- exactly when a drain meets an empty cell -----

  /** A completion has been overwritten, or its cell emptied: the ring has wrapped around onto itself. */
  predicate Broken(c: Completion, p: nat) {
    && CompletionSized(c) && c.remove <= p < c.insert
    && (c.cells[p % MAX_COMPLETIONS].None? || p + MAX_COMPLETIONS < c.insert)
  }

  lemma {:induction false} TakeOldestKeepsBroken(c: Completion, count: nat, p: nat) returns (p': nat)
    requires Broken(c, p) && TakeOldest(c, count).Some?
    ensures Broken(TakeOldest(c, count).value.0, p')
    decreases count
  {
    p' := p;
    if count > 0 {
      var at := c.remove % MAX_COMPLETIONS;
      if p == c.remove {
        p' := p + MAX_COMPLETIONS;
        SameCell(p);
      }
      p' := TakeOldestKeepsBroken(c.(remove := c.remove + 1, cells := c.cells[at := None]), count - 1, p');
    }
  }

  /** Draining all of a broken ring meets an empty cell. */
  lemma BrokenDrainFails(c: Completion, count: nat, p: nat)
    requires Broken(c, p) && count >= c.insert - c.remove
    ensures Await(c, count).None?
  {
    if TakeOldest(c, count).Some? {
      var p' := TakeOldestKeepsBroken(c, count, p);
      TakeOldestMoves(c, count);
    }
  }

  lemma StepKeepsBroken(w: World, op: Op, p: nat) returns (p': nat)
    requires PostedOk(w) && Broken(w.c, p) && Step(w, op).Some?
    ensures Broken(Step(w, op).value.c, p')
  {
    p' := p;
    if op.Deliver? {
      DeliverPosts(w, op.i, op.m);
      if p < w.c.insert < p + MAX_COMPLETIONS {
        CellsApart(p, w.c.insert);
      }
    }
    if op.Collect? {
      p' := TakeOldestKeepsBroken(w.c, op.count, p);
    }
    hide Callback;
    hide TakeOldest;
  }

  lemma {:induction false} RunKeepsBroken(w: World, ops: seq<Op>, p: nat) returns (p': nat)
    requires PostedOk(w) && Broken(w.c, p) && Run(w, ops).Some?
    ensures Broken(Run(w, ops).value.c, p')
    decreases |ops|
  {
    hide Step;
    hide PostedOk;
    hide Broken;
    p' := p;
    if ops != [] {
      StepKeepsPosted(w, ops[0]);
      var p1 := StepKeepsBroken(w, ops[0], p);
      p' := RunKeepsBroken(Step(w, ops[0]).value, ops[1..], p1);
    }
  }

  /** The first completion posted to a full ring breaks it for the rest of the run. */
  lemma {:induction false} OverrunBreaks(w: World, ops: seq<Op>) returns (p: nat)
    requires PostedOk(w) && !NeverOverrun(w, ops) && Run(w, ops).Some?
    ensures Broken(Run(w, ops).value.c, p)
    decreases |ops|
  {
    hide Step;
    var w1 := Step(w, ops[0]).value;
    StepKeepsPosted(w, ops[0]);
    if Fits(w1) {
      p := OverrunBreaks(w1, ops[1..]);
    } else {
      p := RunKeepsBroken(w1, ops[1..], w1.c.remove);
    }
  }

  /** Completions can be drained, in whatever number. */
  ghost predicate DrainsSucceed(w: World)
    requires Shaped(w)
  {
    forall count: nat :: Step(w, Collect(count)).Some?
  }

  /**
   * Exactly when no drain meets an empty cell: after any run, of any number and kind of services, drains of every
   * size succeed if and only if no callback of the run has posted to a full ring.
   */
  lemma DrainsSucceedIff(ops: seq<Op>)
    requires Run(Start(), ops).Some?
    ensures DrainsSucceed(Run(Start(), ops).value) <==> NeverOverrun(Start(), ops)
  {
    StartIsOk();
    var w := Run(Start(), ops).value;
    if NeverOverrun(Start(), ops) {
      RunKeepsRing(Start(), ops);
      forall count: nat ensures Step(w, Collect(count)).Some? {
        CollectKeepsRing(w, count);
      }
    } else {
      var p := OverrunBreaks(Start(), ops);
      BrokenDrainFails(w.c, w.c.insert - w.c.remove, p);
      assert Step(w, Collect(w.c.insert - w.c.remove)).None?;
    }
  }

  // ----- vchi services: one completion each -----

  /** Of the completions queued, each belongs to a different service, at the position that service remembers. */
  predicate QueuedOk(w: World)
    ensures QueuedOk(w) ==> PostedOk(w)
  {
    && PostedOk(w)
    && (forall i | 0 <= i < |w.users| :: w.users[i].isVchi)
    && (forall p | w.c.remove <= p < w.c.insert ::
          w.posted[p].owner < |w.users| && w.users[w.posted[p].owner].availablePos == p)
  }

  lemma {:induction false} DistinctFit(f: seq<nat>, n: nat)
    requires forall k | 0 <= k < |f| :: f[k] < n
    requires forall j, k | 0 <= j < k < |f| :: f[j] != f[k]
    ensures |f| <= n
    decreases n
  {
    if f != [] {
      // drop the last entry, and let the value n - 1 take its name where it occurs
      var last := f[|f| - 1];
      var rest := f[..|f| - 1];
      var g := seq(|rest|, k requires 0 <= k < |rest| => if rest[k] == n - 1 then last else rest[k]);
      DistinctFit(g, n - 1);
    }
  }

  /** The pigeonhole: no more completions are queued than there are services. */
  lemma QueuedAtMostOnePerService(w: World)
    requires QueuedOk(w)
    ensures w.c.insert - w.c.remove <= |w.users|
  {
    var n := w.c.insert - w.c.remove;
    var f := seq(n, k requires 0 <= k < n => w.posted[w.c.remove + k].owner);
    forall j, k | 0 <= j < k < |f| ensures f[j] != f[k] {
      assert w.users[f[j]].availablePos == w.c.remove + j;
      assert w.users[f[k]].availablePos == w.c.remove + k;
    }
    DistinctFit(f, |w.users|);
  }

  lemma StepKeepsQueued(w: World, op: Op)
    requires QueuedOk(w) && Step(w, op).Some? && (op.AddUser? ==> op.isVchi)
    ensures QueuedOk(Step(w, op).value)
  {
    StepKeepsPosted(w, op);
    if op.Deliver? {
      DeliverPosts(w, op.i, op.m);
      var w1 := Step(w, op).value;
      assert forall p | 0 <= p < |w.posted| :: w1.posted[p] == w1.posted[..|w.posted|][p] == w.posted[p];
    }
    if op.Collect? {
      CollectMoves(w, op.count);
    }
    hide PostedOk;
    hide Callback;
    hide Await;
  }

  lemma {:induction false} FewNeverOverrun(w: World, ops: seq<Op>)
    requires QueuedOk(w) && VchiOnly(ops) && Run(w, ops).Some? && |Run(w, ops).value.users| <= MAX_COMPLETIONS
    ensures NeverOverrun(w, ops)
    decreases |ops|
  {
    hide Step;
    hide QueuedOk;
    if ops != [] {
      UsersOnlyGrow(w, ops);
      var w1 := Step(w, ops[0]).value;
      UsersOnlyGrow(w1, ops[1..]);
      StepKeepsQueued(w, ops[0]);
      QueuedAtMostOnePerService(w1);
      FewNeverOverrun(w1, ops[1..]);
    }
  }

  /** A run with at most 128 services, all vchi, never posts to a full ring. */
  lemma FewServicesNeverOverrun(ops: seq<Op>)
    requires VchiOnly(ops) && Run(Start(), ops).Some? && |Run(Start(), ops).value.users| <= MAX_COMPLETIONS
    ensures NeverOverrun(Start(), ops)
  {
    StartIsOk();
    FewNeverOverrun(Start(), ops);
  }

  // ----- the bound on services is sharp -----

  function AddUsers(n: nat): seq<Op> {
    if n == 0 then [] else AddUsers(n - 1) + [AddUser(true)]
  }

  function DeliverEach(n: nat, m: Msg): seq<Op> {
    if n == 0 then [] else DeliverEach(n - 1, m) + [Deliver(n - 1, m)]
  }

  lemma {:induction false} AddUsersAdds(n: nat)
    ensures VchiOnly(AddUsers(n))
    ensures var r := Run(Start(), AddUsers(n));
            && r.Some? && |r.value.users| == n && r.value.c == NewCompletion() && r.value.posted == []
            && forall i | 0 <= i < n :: Idle(r.value, i)
  {
    if n > 0 {
      AddUsersAdds(n - 1);
      RunAppend(Start(), AddUsers(n - 1), [AddUser(true)]);
      RunOne(Run(Start(), AddUsers(n - 1)).value, AddUser(true));
      OneMoreIdle(Run(Start(), AddUsers(n - 1)).value);
    }
  }

  lemma OneMoreIdle(w: World)
    requires Shaped(w) && forall i | 0 <= i < |w.users| :: Idle(w, i)
    ensures var w1 := Step(w, AddUser(true)).value;
            |w1.users| == |w.users| + 1 && forall i | 0 <= i < |w1.users| :: Idle(w1, i)
  {
    var w1 := Step(w, AddUser(true)).value;
    forall i | 0 <= i < |w1.users| ensures Idle(w1, i) {
      assert i < |w.users| ==> Idle(w, i);
    }
  }

  /** Nothing has happened to the service. */
  predicate Idle(w: World, i: nat) {
    && Shaped(w) && i < |w.users| && w.users[i] == NewUser(i, true)
    && w.accepted[i] == [] && w.seen[i] == 0 && w.released[i] == {}
  }

  /** Its first message has come, announced at position `i`, and nobody has drained it. */
  predicate Announced(w: World, i: nat) {
    && Shaped(w) && i < |w.users| && w.users[i].availablePos == i
    && |w.accepted[i]| == 1 && w.seen[i] == 0 && w.released[i] == {}
  }

  /** A service idle so far gets its notification posted. */
  lemma FirstDelivery(w: World, i: nat, m: Msg)
    requires Idle(w, i) && w.c.insert == i && w.c.remove == 0
    ensures Step(w, Deliver(i, m)).Some?
    ensures var w1 := Step(w, Deliver(i, m)).value;
            && w1.c.insert == i + 1 && w1.c.remove == 0 && |w1.users| == |w.users| && Announced(w1, i)
            && w1.c.cells[i % MAX_COMPLETIONS].Some? && w1.c.cells[i % MAX_COMPLETIONS].value.owner == i
            && (forall j | 0 <= j < |w.users| && j != i ::
                  && (Idle(w, j) ==> Idle(w1, j)) && (Announced(w, j) ==> Announced(w1, j)))
  {
  }

  lemma {:induction false} DeliverEachFills(w: World, n: nat, m: Msg)
    requires Shaped(w) && n <= |w.users| && w.c.remove == 0 && w.c.insert == 0
    requires forall i | 0 <= i < |w.users| :: Idle(w, i)
    ensures VchiOnly(DeliverEach(n, m))
    ensures var r := Run(w, DeliverEach(n, m));
            && r.Some? && |r.value.users| == |w.users| && r.value.c.insert == n && r.value.c.remove == 0
            && (forall i | 0 <= i < n :: Announced(r.value, i))
            && (forall i | n <= i < |w.users| :: Idle(r.value, i))
            && (n > 0 ==> r.value.c.cells[(n - 1) % MAX_COMPLETIONS].Some?
                          && r.value.c.cells[(n - 1) % MAX_COMPLETIONS].value.owner == n - 1)
    decreases n
  {
    if n > 0 {
      hide Step;
      hide Idle;
      hide Announced;
      DeliverEachFills(w, n - 1, m);
      var w1 := Run(w, DeliverEach(n - 1, m)).value;
      RunAppend(w, DeliverEach(n - 1, m), [Deliver(n - 1, m)]);
      RunOne(w1, Deliver(n - 1, m));
      FirstDelivery(w1, n - 1, m);
    }
  }

  /** 129 services, a message for each, and nobody who drains. */
  function Crowded(): seq<Op> {
    AddUsers(MAX_COMPLETIONS + 1) + DeliverEach(MAX_COMPLETIONS + 1, Msg(0, []))
  }

  /**
   * What 129 services do: the notification of the last takes the place of the first. Draining them all meets an empty
   * cell, and after draining one the first service has not been notified of its message, and is no longer queued.
   */
  lemma CrowdedLoses()
    ensures VchiOnly(Crowded()) && Run(Start(), Crowded()).Some?
    ensures var w := Run(Start(), Crowded()).value;
            && |w.users| == MAX_COMPLETIONS + 1 && !DrainsSucceed(w) && w.c.insert - w.c.remove == MAX_COMPLETIONS + 1
            && Step(w, Collect(1)).Some? && !Notified(Step(w, Collect(1)).value, 0)
  {
    var n, m := MAX_COMPLETIONS + 1, Msg(0, []);
    AddUsersAdds(n);
    var w0 := Run(Start(), AddUsers(n)).value;
    DeliverEachFills(w0, n, m);
    RunAppend(Start(), AddUsers(n), DeliverEach(n, m));
    var w := Run(w0, DeliverEach(n, m)).value;
    hide Run;
    hide AddUsers;
    hide DeliverEach;
    assert Announced(w, 0);
    assert Broken(w.c, 0);
    BrokenDrainFails(w.c, w.c.insert - w.c.remove, 0);
    assert Step(w, Collect(w.c.insert - w.c.remove)).None?;
    OneDrained(w);
  }

  /** Draining one completion that is not of service 0 leaves service 0 behind. */
  lemma OneDrained(w: World)
    requires Announced(w, 0) && w.c.remove == 0 < w.c.insert
    requires w.c.cells[0].Some? && w.c.cells[0].value.owner != 0
    ensures Step(w, Collect(1)).Some? && !Notified(Step(w, Collect(1)).value, 0)
  {
    var c1 := w.c.(remove := 1, cells := w.c.cells[0 := None]);
    assert TakeOldest(c1, 0) == Some((c1, []));
    assert Await(w.c, 1) == Some((c1, [w.c.cells[0].value] + []));
    var w1 := Step(w, Collect(1)).value;
    assert w1.seen[0] == 0 && 0 !in w1.released[0] && w1.users[0].availablePos < w1.c.remove;
  }

  /** Every run with at most `n` services, all vchi, keeps what is said of it. */
  ghost predicate NeverOverflows(n: nat) {
    forall ops | VchiOnly(ops) && Run(Start(), ops).Some? && |Run(Start(), ops).value.users| <= n ::
      Fits(Run(Start(), ops).value)
  }

  ghost predicate DrainsAlwaysSucceed(n: nat) {
    forall ops | VchiOnly(ops) && Run(Start(), ops).Some? && |Run(Start(), ops).value.users| <= n ::
      DrainsSucceed(Run(Start(), ops).value)
  }

  ghost predicate NotificationsNeverLost(n: nat) {
    forall ops | VchiOnly(ops) && Run(Start(), ops).Some? && |Run(Start(), ops).value.users| <= n ::
      AllNotified(Run(Start(), ops).value)
  }

  /**
   * The 128 entries suffice for every run exactly when there are at most 128 services: for the counters, for the
   * drains, none of which then meets an empty cell, and for the notifications, none of which then is lost.
   */
  lemma NeverOverflowsIff(n: nat)
    ensures NeverOverflows(n) <==> n <= MAX_COMPLETIONS
    ensures DrainsAlwaysSucceed(n) <==> n <= MAX_COMPLETIONS
    ensures NotificationsNeverLost(n) <==> n <= MAX_COMPLETIONS
  {
    if n <= MAX_COMPLETIONS {
      forall ops | VchiOnly(ops) && Run(Start(), ops).Some? && |Run(Start(), ops).value.users| <= n
        ensures Fits(Run(Start(), ops).value) && DrainsSucceed(Run(Start(), ops).value)
        ensures AllNotified(Run(Start(), ops).value)
      {
        FewServicesNeverOverrun(ops);
        CompletionsInOrder(ops);
        DrainsSucceedIff(ops);
        StartIsOk();
        RunKeepsRing(Start(), ops);
      }
    } else {
      CrowdedLoses();
      var w := Run(Start(), Crowded()).value;
      RunAppend(Start(), Crowded(), [Collect(1)]);
      RunOne(w, Collect(1));
      CollectKeepsUsers(w, 1);
      var ops := Crowded() + [Collect(1)];
      assert VchiOnly(ops) && Run(Start(), ops).Some?;
      assert !AllNotified(Run(Start(), ops).value);
    }
  }

  lemma CollectKeepsUsers(w: World, count: nat)
    requires Shaped(w) && Step(w, Collect(count)).Some?
    ensures Step(w, Collect(count)).value.users == w.users
  {
  }
}
