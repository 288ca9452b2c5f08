/**
 * The rings as the code keeps them, updated in place (src/vchiq/service.rs, src/vchiq/instance/completion.rs,
 * src/vchiq/instance/mod.rs). Every method is proved against the function of module Rings with its name.
 */
module RingObjects {
  import opened Config
  import opened SlotMessage
  import Rings
  import opened Kinds = Rings

  class ServiceUser {
    const owner: nat                // stands for the service's own user data
    const isVchi: bool
    var dequeuePending: bool
    var messageAvailablePos: int
    var msgInsert: nat
    var msgRemove: nat
    var insertEvent: nat
    var removeEvent: nat
    const msgQueue: array<Option<Msg>>

    constructor (owner: nat, isVchi: bool)
      ensures Valid() && fresh(msgQueue) && View() == Rings.NewUser(owner, isVchi)
    {
      this.owner, this.isVchi := owner, isVchi;
      dequeuePending, messageAvailablePos, msgInsert, msgRemove, insertEvent, removeEvent := false, -1, 0, 0, 0, 0;
      msgQueue := new Option<Msg>[MSG_QUEUE_SIZE](_ => None);
      new;
      assert msgQueue[..] == seq(MSG_QUEUE_SIZE, _ => None);
    }

    predicate Valid()
      reads this
    {
      msgQueue.Length == MSG_QUEUE_SIZE
    }

    function View(): Rings.User
      reads this, msgQueue
    {
      Rings.User(owner, isVchi, dequeuePending, messageAvailablePos, msgInsert, msgRemove, insertEvent, removeEvent,
                 msgQueue[..])
    }

    /** The part of service_callback that puts the message into its cell, free or not. */
    method Insert(msg: Option<Msg>)
      requires Valid()
      modifies this`msgInsert, msgQueue
      ensures View() == old(View()).(cells := old(View()).cells[old(msgInsert) % MSG_QUEUE_SIZE := msg],
                                     insert := old(msgInsert) + 1)
    {
      msgQueue[msgInsert % MSG_QUEUE_SIZE] := msg;
      msgInsert := msgInsert + 1;
    }

    /** One poll of dequeue_message. */
    method DequeueMessage() returns (r: Polled)
      requires Valid()
      modifies this, msgQueue
      ensures Valid()
      ensures match Rings.Dequeue(old(View()))
              case Pending(u) => r == Waiting && View() == u
              case Took(u, m) => r == Got(m) && View() == u
              case Failed => r == Refusal
    {
      if !isVchi {
        return Refusal;
      }
      if msgRemove == msgInsert {
        dequeuePending := true;
        if insertEvent > 0 {
          insertEvent := insertEvent - 1;
        }
        return Waiting;
      }
      if msgRemove > msgInsert {
        return Refusal;
      }
      var at := msgRemove % MSG_QUEUE_SIZE;
      var taken := msgQueue[at];
      msgRemove := msgRemove + 1;
      msgQueue[at] := None;
      if taken.None? {
        return Refusal;
      }
      removeEvent := removeEvent + 1;
      return Got(taken.value);
    }
  }

  datatype Polled = Waiting | Got(msg: Msg) | Refusal

  datatype Collected = NotConnected | Collected(entries: seq<Entry>) | EmptyCell

  class Completion {
    var completionInsert: nat
    var completionRemove: nat
    var insertEvent: nat
    var removeEvent: nat
    const completions: array<Option<Entry>>

    constructor ()
      ensures Valid() && fresh(completions) && View() == Rings.NewCompletion()
    {
      completionInsert, completionRemove, insertEvent, removeEvent := 0, 0, 0, 0;
      completions := new Option<Entry>[MAX_COMPLETIONS](_ => None);
      new;
      assert completions[..] == seq(MAX_COMPLETIONS, _ => None);
    }

    predicate Valid()
      reads this
    {
      completions.Length == MAX_COMPLETIONS
    }

    function View(): Rings.Completion
      reads this, completions
    {
      Rings.Completion(completionInsert, completionRemove, insertEvent, removeEvent, completions[..])
    }

    method AddCompletion(reason: Reason, msg: Option<Msg>, u: ServiceUser)
      requires Valid()
      modifies this, completions, u`messageAvailablePos
      ensures Valid() && (View(), u.View()) == Rings.AddCompletion(old(View()), reason, msg, old(u.View()))
    {
      var insert := completionInsert;
      if insert - completionRemove >= MAX_COMPLETIONS {
        // full: the result of the attempt is ignored, and the entry is written all the same
        if removeEvent > 0 {
          removeEvent := removeEvent - 1;
        }
      }
      completions[insert % MAX_COMPLETIONS] := Some(Entry(reason, msg, u.owner));
      if reason == MESSAGE_AVAILABLE {
        u.messageAvailablePos := insert;
      }
      completionInsert := insert + 1;
      insertEvent := insertEvent + 1;
    }

    /**
     * One poll of await_completion, by an instance that is connected or not. An empty result means that the call
     * stays pending.
     */
    method AwaitCompletion(connected: bool, count: nat) returns (r: Collected)
      requires Valid()
      modifies this, completions
      ensures Valid()
      ensures if !connected then r == NotConnected && View() == old(View())
              else
                match Rings.Await(old(View()), count)
                case None => r == EmptyCell
                case Some((c, es)) => r == Collected(es) && View() == c
    {
      if !connected {
        return NotConnected;
      }
      var result := [];
      if completionRemove == completionInsert {
        if insertEvent > 0 {
          insertEvent := insertEvent - 1;
        }
        return Collected([]);
      }
      ghost var want := Rings.TakeOldest(View(), count);
      assert want.Some? ==> result + want.value.1 == want.value.1;
      for k := 0 to count
        invariant Valid()
        invariant match Rings.TakeOldest(View(), count - k)
                  case None => want.None?
                  case Some((c, es)) => want == Some((c, result + es))
      {
        if completionRemove == completionInsert {
          break;
        }
        var at := completionRemove % MAX_COMPLETIONS;
        var completion := completions[at];
        ghost var before := View();
        completions[at] := None;
        if completion.None? {
          return EmptyCell;
        }
        completionRemove := completionRemove + 1;
        assert View() == before.(remove := before.remove + 1, cells := before.cells[at := None]);
        ghost var taken := Rings.TakeOldest(View(), count - k - 1);
        assert taken.Some? ==>
            result + ([completion.value] + taken.value.1) == result + [completion.value] + taken.value.1;
        result := result + [completion.value];
      }
      assert result + [] == result;
      return Collected(result);
    }
  }

  /** The part of service_callback for a full message ring: an attempt to wait, whose result is ignored. */
  method MakeRoom(reason: Reason, u: ServiceUser, c: Completion)
    requires u.Valid() && c.Valid()
    modifies u`messageAvailablePos, u`removeEvent, c, c.completions
    ensures c.Valid() && (c.View(), u.View()) == Rings.WhenFull(old(u.View()), old(c.View()), reason)
  {
    hide Rings.AddCompletion;
    if u.messageAvailablePos < c.completionRemove {
      c.AddCompletion(reason, None, u);
    }
    if u.removeEvent > 0 {
      u.removeEvent := u.removeEvent - 1;
    }
  }

  /** The part of service_callback after the message is in its cell. */
  method Announce(reason: Reason, msg: Option<Msg>, u: ServiceUser, c: Completion)
    requires u.Valid() && c.Valid()
    modifies u`dequeuePending, u`insertEvent, u`messageAvailablePos, c, c.completions
    ensures c.Valid() && (c.View(), u.View()) == Rings.Announce(old(u.View()), old(c.View()), reason, msg)
  {
    hide Rings.AddCompletion;
    var skipCompletion := false;
    if u.messageAvailablePos >= c.completionRemove || u.dequeuePending {
      u.dequeuePending := false;
      skipCompletion := true;
    }
    u.insertEvent := u.insertEvent + 1;
    if !skipCompletion {
      c.AddCompletion(reason, msg, u);
    }
  }

  /** service_callback. */
  method ServiceCallback(reason: Reason, msg: Option<Msg>, u: ServiceUser, c: Completion)
    requires u.Valid() && c.Valid()
    modifies u, u.msgQueue, c, c.completions
    ensures u.Valid() && c.Valid() && (c.View(), u.View()) == Rings.Callback(old(u.View()), old(c.View()), reason, msg)
  {
    hide Rings.AddCompletion;
    hide Rings.WhenFull;
    hide Rings.Announce;
    if !u.isVchi {
      c.AddCompletion(reason, msg, u);
    } else {
      if u.msgInsert == u.msgRemove + MSG_QUEUE_SIZE {
        MakeRoom(reason, u, c);
      }
      u.Insert(msg);
      Announce(reason, msg, u, c);
    }
  }
}
