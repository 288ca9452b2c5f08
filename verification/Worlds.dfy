/** All rings together, with the full histories of what went through them, over every interleaving of operations. */
module Worlds {
  import opened Config
  import opened SlotMessage
  import opened Rings

  /** The rings, and the full histories of what went through them. */
  datatype World = World(
    users: seq<User>,
    c: Completion,
    accepted: seq<seq<Msg>>,        // per service: every message handed to its callback
    returned: seq<seq<Msg>>,        // per service: every message dequeue_message has returned
    posted: seq<Entry>,             // every completion added
    drained: seq<Entry>,            // every completion await_completion has returned
    seen: seq<nat>,                 // per service: messages accepted before its last MESSAGE_AVAILABLE was drained
    released: seq<set<nat>>)        // per service: the messages whose arrival released a pending dequeuer

  datatype Op = AddUser(isVchi: bool) | Deliver(i: nat, m: Msg) | Take(i: nat) | Collect(count: nat)

  function Start(): World {
    World([], NewCompletion(), [], [], [], [], [], [])
  }

  /** Every service has its record in each history. */
  predicate Shaped(w: World) {
    && |w.accepted| == |w.users| && |w.returned| == |w.users|
    && |w.seen| == |w.users| && |w.released| == |w.users|
    && CompletionSized(w.c)
    && forall i | 0 <= i < |w.users| :: UserSized(w.users[i]) && w.users[i].owner == i
  }

  function PostedBetween(a: Completion, b: Completion): seq<Entry>
    requires CompletionSized(a) && CompletionSized(b)
  {
    if b.insert == a.insert + 1 && b.cells[a.insert % MAX_COMPLETIONS].Some?
    then [b.cells[a.insert % MAX_COMPLETIONS].value] else []
  }

  function DeliverStep(w: World, i: nat, m: Msg): World
    requires Shaped(w) && i < |w.users|
  {
    var u := w.users[i];
    var (c, u1) := Callback(u, w.c, MESSAGE_AVAILABLE, Some(m));
    w.(users := w.users[i := u1], c := c,
       accepted := w.accepted[i := w.accepted[i] + [m]],
       posted := w.posted + PostedBetween(w.c, c),
       released := if u.dequeuePending then w.released[i := w.released[i] + {|w.accepted[i]|}] else w.released)
  }

  /** What clients have seen once the completions `es` are theirs. */
  function SeenAfter(w: World, es: seq<Entry>): seq<nat>
    requires Shaped(w)
  {
    seq(|w.users|, i requires 0 <= i < |w.users| =>
      if exists e | e in es :: e.owner == i then |w.accepted[i]| else w.seen[i])
  }

  function Step(w: World, op: Op): (r: Option<World>)
    requires Shaped(w)
    ensures r.Some? ==> Shaped(r.value)
  {
    match op
    case AddUser(isVchi) =>
      Some(w.(users := w.users + [NewUser(|w.users|, isVchi)], accepted := w.accepted + [[]],
              returned := w.returned + [[]], seen := w.seen + [0], released := w.released + [{}]))
    case Deliver(i, m) =>
      if i >= |w.users| then None
      else
        CallbackKeepsOwner(w.users[i], w.c, m);
        Some(DeliverStep(w, i, m))
    case Take(i) =>
      if i >= |w.users| then None
      else
        (match Dequeue(w.users[i])
         case Pending(u) => Some(w.(users := w.users[i := u]))
         case Took(u, m) => Some(w.(users := w.users[i := u], returned := w.returned[i := w.returned[i] + [m]]))
         case Failed => None)
    case Collect(count) =>
      (match Await(w.c, count)
       case None => None
       case Some((c, es)) => Some(w.(c := c, drained := w.drained + es, seen := SeenAfter(w, es))))
  }

  lemma CallbackKeepsOwner(u: User, c: Completion, m: Msg)
    requires UserSized(u) && CompletionSized(c)
    ensures Callback(u, c, MESSAGE_AVAILABLE, Some(m)).1.owner == u.owner
  {
  }

  function Run(w: World, ops: seq<Op>): (r: Option<World>)
    requires Shaped(w)
    ensures r.Some? ==> Shaped(r.value)
    decreases |ops|
  {
    if ops == [] then Some(w)
    else
      match Step(w, ops[0])
      case None => None
      case Some(w1) => Run(w1, ops[1..])
  }

  lemma {:induction false} UsersOnlyGrow(w: World, ops: seq<Op>)
    requires Shaped(w) && Run(w, ops).Some?
    ensures |w.users| <= |Run(w, ops).value.users|
    decreases |ops|
  {
    if ops != [] {
      UsersOnlyGrow(Step(w, ops[0]).value, ops[1..]);
    }
  }

  predicate VchiOnly(ops: seq<Op>) {
    forall op | op in ops :: op.AddUser? ==> op.isVchi
  }

  lemma {:induction false} RunAppend(w: World, a: seq<Op>, b: seq<Op>)
    requires Shaped(w)
    ensures Run(w, a + b) == (if Run(w, a).None? then None else Run(Run(w, a).value, b))
    decreases |a|
  {
    if a == [] {
      assert a + b == b;
    } else {
      hide Step;
      assert (a + b)[1..] == a[1..] + b;
      if Step(w, a[0]).Some? {
        RunAppend(Step(w, a[0]).value, a[1..], b);
      }
    }
  }

  lemma RunOne(w: World, op: Op)
    requires Shaped(w)
    ensures Run(w, [op]) == Step(w, op)
  {
    hide Step;
    assert [op][1..] == [];
  }

  // ----- what one callback does -----

  /** What a callback puts into the message ring of a vchi service, whether or not there is room. */
  lemma CallbackInserts(u: User, c: Completion, m: Msg)
    requires UserSized(u) && CompletionSized(c) && u.isVchi
    ensures var u1 := Callback(u, c, MESSAGE_AVAILABLE, Some(m)).1;
            && u1.insert == u.insert + 1 && u1.remove == u.remove && !u1.dequeuePending && u1.isVchi
            && u1.cells == u.cells[u.insert % MSG_QUEUE_SIZE := Some(m)]
  {
  }

  /** A callback leaves the message ring of any other service alone. */
  lemma CallbackKeepsRing(u: User, c: Completion, m: Msg)
    requires UserSized(u) && CompletionSized(c) && !u.isVchi
    ensures var u1 := Callback(u, c, MESSAGE_AVAILABLE, Some(m)).1; u1 == u.(availablePos := u1.availablePos)
  {
  }

  /**
   * How a callback announces its message. It leaves the completion ring alone where one of the service's completions is
   * still queued or a dequeuer is released. Otherwise it adds one completion, which the service remembers, with the
   * message in it, unless it found the message ring full.
   */
  lemma CallbackAnnounces(u: User, c: Completion, m: Msg)
    requires UserSized(u) && CompletionSized(c) && u.availablePos < c.insert && c.remove <= c.insert
    ensures var (c1, u1) := Callback(u, c, MESSAGE_AVAILABLE, Some(m));
            var full := u.isVchi && u.insert == u.remove + MSG_QUEUE_SIZE;
            && u1.isVchi == u.isVchi && u1.owner == u.owner && u1.dequeuePending == (!u.isVchi && u.dequeuePending)
            && if u.isVchi && (u.availablePos >= c.remove || (u.dequeuePending && !full))
               then c1 == c && u1.availablePos == u.availablePos
               else
                 && u1.availablePos == c.insert
                 && c1.remove == c.remove && c1.insert == c.insert + 1 && c1.insertEvent == c.insertEvent + 1
                 && c1.cells == c.cells[c.insert % MAX_COMPLETIONS :=
                                        Some(Entry(MESSAGE_AVAILABLE, if full then None else Some(m), u.owner))]
  {
  }

  /** A callback with another reason posts its completion without being remembered for it. */
  lemma OtherReasons(u: User, c: Completion, reason: Reason, msg: Option<Msg>)
    requires UserSized(u) && CompletionSized(c) && reason != MESSAGE_AVAILABLE
    ensures var (c1, u1) := Callback(u, c, reason, msg);
            && u1.availablePos == u.availablePos
            && (!u.isVchi ==>
                  && u1 == u && c1.insert == c.insert + 1 && c1.remove == c.remove
                  && c1.cells == c.cells[c.insert % MAX_COMPLETIONS := Some(Entry(reason, msg, u.owner))])
  {
  }

  // ----- cells -----

  /** Two positions less than a ring apart are different cells; both rings have 128 of them. */
  lemma CellsApart(p: nat, q: nat)
    requires p < q < p + MAX_COMPLETIONS
    ensures p % MAX_COMPLETIONS != q % MAX_COMPLETIONS && p % MSG_QUEUE_SIZE != q % MSG_QUEUE_SIZE
  {
  }

  lemma SameCell(p: nat)
    ensures (p + MSG_QUEUE_SIZE) % MSG_QUEUE_SIZE == p % MSG_QUEUE_SIZE
  {
  }

  function Min(a: nat, b: nat): nat {
    if a <= b then a else b
  }
}
