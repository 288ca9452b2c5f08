/**
 * The message ring of every service and the completion ring they share
 * (src/vchiq/instance/mod.rs, src/vchiq/instance/completion.rs).
 */
module Rings {
  import opened Config
  import opened SlotMessage

  datatype Reason =
    | SERVICE_OPENED | SERVICE_CLOSED | MESSAGE_AVAILABLE | BULK_TRANSMIT_DONE | BULK_RECEIVE_DONE
    | BULK_TRANSMIT_ABORTED | BULK_RECEIVE_ABORTED

  /** ServiceCompletion; `owner` stands for the service's own user data. */
  datatype Entry = Entry(reason: Reason, msg: Option<Msg>, owner: nat)

  /** ServiceUser. */
  datatype User = User(
    owner: nat,
    isVchi: bool,
    dequeuePending: bool,
    availablePos: int,              // message_available_pos
    insert: nat,                    // msg_insert
    remove: nat,                    // msg_remove
    insertEvent: nat,
    removeEvent: nat,
    cells: seq<Option<Msg>>)        // msg_queue

  datatype Completion = Completion(
    insert: nat,
    remove: nat,
    insertEvent: nat,
    removeEvent: nat,
    cells: seq<Option<Entry>>)

  function NewUser(owner: nat, isVchi: bool): User {
    User(owner, isVchi, false, -1, 0, 0, 0, 0, seq(MSG_QUEUE_SIZE, _ => None))
  }

  function NewCompletion(): Completion {
    Completion(0, 0, 0, 0, seq(MAX_COMPLETIONS, _ => None))
  }

  predicate UserSized(u: User) {
    |u.cells| == MSG_QUEUE_SIZE
  }

  predicate CompletionSized(c: Completion) {
    |c.cells| == MAX_COMPLETIONS
  }

  /** try_down of a semaphore whose result is ignored. */
  function TryDown(count: nat): nat {
    if count > 0 then count - 1 else 0
  }

  /** add_completion: a full ring is noticed, but written to all the same. */
  function AddCompletion(c: Completion, reason: Reason, msg: Option<Msg>, u: User): (r: (Completion, User))
    requires CompletionSized(c)
    ensures CompletionSized(r.0)
  {
    var c1 := if c.insert - c.remove >= MAX_COMPLETIONS then c.(removeEvent := TryDown(c.removeEvent)) else c;
    var c2 := c1.(cells := c1.cells[c.insert % MAX_COMPLETIONS := Some(Entry(reason, msg, u.owner))],
                  insert := c.insert + 1, insertEvent := c1.insertEvent + 1);
    (c2, if reason == MESSAGE_AVAILABLE then u.(availablePos := c.insert) else u)
  }

  /** The part of service_callback for a full message ring. */
  function WhenFull(u: User, c: Completion, reason: Reason): (r: (Completion, User))
    requires CompletionSized(c)
    ensures CompletionSized(r.0)
  {
    var (c1, u1) := if u.availablePos < c.remove then AddCompletion(c, reason, None, u) else (c, u);
    (c1, u1.(removeEvent := TryDown(u1.removeEvent)))
  }

  /** The part of service_callback after the message is in its cell: a completion is added only where one is needed. */
  function Announce(u: User, c: Completion, reason: Reason, msg: Option<Msg>): (r: (Completion, User))
    requires UserSized(u) && CompletionSized(c)
    ensures CompletionSized(r.0) && UserSized(r.1)
  {
    if u.availablePos >= c.remove || u.dequeuePending
    then (c, u.(dequeuePending := false, insertEvent := u.insertEvent + 1))
    else AddCompletion(c, reason, msg, u.(insertEvent := u.insertEvent + 1))
  }

  /** service_callback. */
  function Callback(u: User, c: Completion, reason: Reason, msg: Option<Msg>): (r: (Completion, User))
    requires UserSized(u) && CompletionSized(c)
    ensures CompletionSized(r.0) && UserSized(r.1)
  {
    if !u.isVchi then AddCompletion(c, reason, msg, u)
    else
      var (c1, u1) := if u.insert == u.remove + MSG_QUEUE_SIZE then WhenFull(u, c, reason) else (c, u);
      Announce(u1.(cells := u1.cells[u1.insert % MSG_QUEUE_SIZE := msg], insert := u1.insert + 1), c1, reason, msg)
  }

  /** A poll of dequeue_message. */
  datatype Dequeued = Pending(u: User) | Took(u: User, msg: Msg) | Failed

  /** Failed stands for the refusal of a non-vchi service, for counters out of order and for an empty cell. */
  function Dequeue(u: User): (r: Dequeued)
    requires UserSized(u)
    ensures !r.Failed? ==> UserSized(r.u)
  {
    if !u.isVchi then Failed
    else if u.remove == u.insert then Pending(u.(dequeuePending := true, insertEvent := TryDown(u.insertEvent)))
    else if u.remove > u.insert then Failed
    else
      var at := u.remove % MSG_QUEUE_SIZE;
      match u.cells[at]
      case None => Failed
      case Some(m) =>
        Took(u.(remove := u.remove + 1, cells := u.cells[at := None], removeEvent := u.removeEvent + 1), m)
  }

  /** The loop of await_completion; None stands for an empty cell. */
  function TakeOldest(c: Completion, count: nat): (r: Option<(Completion, seq<Entry>)>)
    requires CompletionSized(c)
    ensures r.Some? ==> CompletionSized(r.value.0)
    decreases count
  {
    if count == 0 || c.remove == c.insert then Some((c, []))
    else
      var at := c.remove % MAX_COMPLETIONS;
      match c.cells[at]
      case None => None
      case Some(e) =>
        match TakeOldest(c.(remove := c.remove + 1, cells := c.cells[at := None]), count - 1)
        case None => None
        case Some((c1, es)) => Some((c1, [e] + es))
  }

  /** A poll of await_completion: with nothing to return it stays pending. */
  function Await(c: Completion, count: nat): (r: Option<(Completion, seq<Entry>)>)
    requires CompletionSized(c)
    ensures r.Some? ==> CompletionSized(r.value.0)
  {
    if c.remove == c.insert then Some((c.(insertEvent := TryDown(c.insertEvent)), []))
    else TakeOldest(c, count)
  }
}
