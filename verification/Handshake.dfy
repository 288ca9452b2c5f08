/**
 * The event handshake between the two sides (src/vchiq/shared/event.rs): a flag each for "armed" and "fired", a
 * doorbell, and a semaphore. First the accessor itself, then every interleaving of its memory accesses.
 */
module Handshake {
  import opened Config

  datatype Flags = Flags(armed: bool, fired: bool, sem: nat)

  /** One poll that nothing interrupts; the boolean tells whether it is ready. */
  function PollAlone(f: Flags): (r: (Flags, bool))
    ensures r.1 <==> f.fired || f.sem > 0
  {
    if f.fired then (f.(fired := false), true)
    else if f.sem > 0 then (f.(armed := false, sem := f.sem - 1), true)
    else (f.(armed := true), false)
  }

  /** EventAccessor; `sem` is the count of its semaphore. */
  class EventAccessor {
    var armed: bool
    var fired: bool
    var sem: nat

    constructor (fired: bool)
      ensures View() == Flags(false, fired, 0)
    {
      armed, this.fired, sem := false, fired, 0;
    }

    function View(): Flags
      reads this
    {
      Flags(armed, fired, sem)
    }

    method SignalLocal()
      modifies this
      ensures View() == Flags(false, old(fired), old(sem) + 1)
    {
      armed := false;
      sem := sem + 1;
    }

    /** The flag set before the first poll of a wait. */
    method BeginWait()
      modifies this
      ensures View() == old(View()).(armed := true)
    {
      armed := true;
    }

    method Poll() returns (ready: bool)
      modifies this
      ensures (View(), ready) == PollAlone(old(View()))
    {
      if !fired {
        armed := true;
        if !fired {
          if sem == 0 {
            return false;
          }
          sem := sem - 1;
          armed := false;
          return true;
        }
      }
      fired := false;
      return true;
    }

    method SignalRemote() returns (rung: bool)
      modifies this
      ensures View() == old(View()).(fired := true) && rung == old(armed)
    {
      fired := true;
      rung := armed;
    }
  }

  // ----- one memory access at a time -----

  /** What the waiting side does next. Idle is between two waits, Parked between two polls. */
  datatype Waiter = Idle | Parked | ReadFired | Arm | ReadFiredAgain | TryDown | Disarm | Clear

  /** The signalling side: between signals, or about to look at `armed`. */
  datatype Signaller = Quiet | CheckArmed

  /** The doorbell handler: at rest, about to clear `armed`, or about to raise the semaphore. */
  datatype Handler = Rest | ClearArmed | Raise

  datatype World = World(
    flags: Flags, doorbell: bool, waiter: Waiter, signaller: Signaller, handler: Handler,
    signals: nat,                   // history: how often `fired` was set
    cleared: nat,                   // history: how often a poll cleared it
    answered: nat)                   // history: how often a poll returned ready

  datatype Actor = WaiterMoves | SignallerMoves | HandlerMoves

  function WaiterStep(w: World): World {
    var f := w.flags;
    match w.waiter
    case Idle => w.(flags := f.(armed := true), waiter := ReadFired)
    case Parked => w.(waiter := ReadFired)
    case ReadFired => w.(waiter := if f.fired then Clear else Arm)
    case Arm => w.(flags := f.(armed := true), waiter := ReadFiredAgain)
    case ReadFiredAgain => w.(waiter := if f.fired then Clear else TryDown)
    case TryDown =>
      if f.sem == 0 then w.(waiter := Parked) else w.(flags := f.(sem := f.sem - 1), waiter := Disarm)
    case Disarm => w.(flags := f.(armed := false), waiter := Idle, answered := w.answered + 1)
    case Clear => w.(flags := f.(fired := false), waiter := Idle, cleared := w.cleared + 1, answered := w.answered + 1)
  }

  function SignallerStep(w: World): World {
    match w.signaller
    case Quiet => w.(flags := w.flags.(fired := true), signaller := CheckArmed, signals := w.signals + 1)
    case CheckArmed => w.(doorbell := w.doorbell || w.flags.armed, signaller := Quiet)
  }

  /**
   * The handler of the doorbell. With `relay` it signals the event; the code has that call commented out, so that
   * nothing comes of the doorbell.
   */
  function HandlerStep(relay: bool, w: World): Option<World> {
    match w.handler
    case Rest => if w.doorbell then Some(w.(doorbell := false, handler := if relay then ClearArmed else Rest)) else None
    case ClearArmed => Some(w.(flags := w.flags.(armed := false), handler := Raise))
    case Raise => Some(w.(flags := w.flags.(sem := w.flags.sem + 1), handler := Rest))
  }

  function Step(relay: bool, w: World, a: Actor): Option<World> {
    match a
    case WaiterMoves => Some(WaiterStep(w))
    case SignallerMoves => Some(SignallerStep(w))
    case HandlerMoves => HandlerStep(relay, w)
  }

  function Run(relay: bool, w: World, run: seq<Actor>): Option<World>
    decreases |run|
  {
    if run == [] then Some(w)
    else
      match Step(relay, w, run[0])
      case None => None
      case Some(w1) => Run(relay, w1, run[1..])
  }

  /** Initialising clears `armed` and leaves `fired` as found; found set, it counts as a signal. */
  function Start(fired: bool): World {
    World(Flags(false, fired, 0), false, Idle, Quiet, Rest, if fired then 1 else 0, 0, 0)
  }

  /** A parked waiter with `fired` set, and nothing on its way that would tell it. */
  predicate Lost(w: World) {
    && w.waiter == Parked && w.flags.fired && w.signaller == Quiet
    && !w.doorbell && w.handler == Rest && w.flags.sem == 0
  }

  predicate Pending(w: World) {
    w.doorbell || w.handler != Rest || w.flags.sem > 0
  }

  predicate Safe(w: World) {
    && (w.waiter in {ReadFiredAgain, TryDown, Parked} ==> w.flags.armed || w.handler == Raise || w.flags.sem > 0)
    && (w.waiter in {TryDown, Parked} && w.flags.fired && w.signaller == Quiet ==> Pending(w))
  }

  lemma {:induction false} RunIsSafe(w: World, run: seq<Actor>)
    requires Safe(w) && Run(true, w, run).Some?
    ensures Safe(Run(true, w, run).value)
    decreases |run|
  {
    if run != [] {
      RunIsSafe(Step(true, w, run[0]).value, run[1..]);
    }
  }

  ghost predicate NeverLost(relay: bool) {
    forall fired, run | Run(relay, Start(fired), run).Some? :: !Lost(Run(relay, Start(fired), run).value)
  }

  /** The waiter parks, the signaller fires and rings, and the handler lets the doorbell pass. */
  function LosingRun(): seq<Actor> {
    [WaiterMoves, WaiterMoves, WaiterMoves, WaiterMoves, WaiterMoves, SignallerMoves, SignallerMoves, HandlerMoves]
  }

  lemma RunCons(relay: bool, w: World, a: Actor, run: seq<Actor>)
    requires Step(relay, w, a).Some?
    ensures Run(relay, w, [a] + run) == Run(relay, Step(relay, w, a).value, run)
  {
    assert ([a] + run)[1..] == run;
  }

  function WaiterSteps(w: World, n: nat): World
    decreases n
  {
    if n == 0 then w else WaiterStep(WaiterSteps(w, n - 1))
  }

  function Waits(n: nat): seq<Actor> {
    if n == 0 then [] else Waits(n - 1) + [WaiterMoves]
  }

  lemma {:induction false} RunWaiter(relay: bool, w: World, n: nat, run: seq<Actor>)
    ensures Run(relay, w, Waits(n) + run) == Run(relay, WaiterSteps(w, n), run)
    decreases n
  {
    hide WaiterStep;
    if n == 0 {
      assert Waits(0) + run == run;
    } else {
      assert Waits(n) + run == Waits(n - 1) + ([WaiterMoves] + run);
      RunWaiter(relay, w, n - 1, [WaiterMoves] + run);
      RunCons(relay, WaiterSteps(w, n - 1), WaiterMoves, run);
    }
  }

  lemma LosingRunLoses()
    ensures Run(false, Start(false), LosingRun()).Some? && Lost(Run(false, Start(false), LosingRun()).value)
  {
    var parked := World(Flags(true, false, 0), false, Parked, Quiet, Rest, 0, 0, 0);
    assert WaiterSteps(Start(false), 5) == parked by {
      assert WaiterSteps(Start(false), 3)
          == World(Flags(true, false, 0), false, ReadFiredAgain, Quiet, Rest, 0, 0, 0) by {
        assert WaiterSteps(Start(false), 1) == World(Flags(true, false, 0), false, ReadFired, Quiet, Rest, 0, 0, 0);
      }
    }
    assert LosingRun() == Waits(5) + LosingEnd() by {
      assert Waits(3) == [WaiterMoves, WaiterMoves, WaiterMoves];
    }
    RunWaiter(false, Start(false), 5, LosingEnd());
    hide WaiterSteps;
    LosingEndLoses(parked);
  }

  function LosingEnd(): seq<Actor> {
    [SignallerMoves] + ([SignallerMoves] + ([HandlerMoves] + []))
  }

  lemma LosingEndLoses(w: World)
    requires w.waiter == Parked && w.signaller == Quiet && w.handler == Rest
    requires !w.doorbell && w.flags == Flags(true, false, 0)
    ensures Run(false, w, LosingEnd()).Some? && Lost(Run(false, w, LosingEnd()).value)
  {
    var w1 := SignallerStep(w);
    var w2 := SignallerStep(w1);
    RunCons(false, w, SignallerMoves, [SignallerMoves] + ([HandlerMoves] + []));
    RunCons(false, w1, SignallerMoves, [HandlerMoves] + []);
    RunCons(false, w2, HandlerMoves, []);
  }

  /**
   * No wakeup is lost, in any interleaving of single memory accesses, exactly when the doorbell's handler signals
   * the event: a parked waiter that has been fired at has a doorbell rung, a handler at work or a raised semaphore,
   * unless the signaller is still between its write and its check.
   */
  lemma NeverLostIff(relay: bool)
    ensures NeverLost(relay) <==> relay
  {
    if relay {
      forall fired, run | Run(relay, Start(fired), run).Some?
        ensures !Lost(Run(relay, Start(fired), run).value)
      {
        RunIsSafe(Start(fired), run);
      }
    } else {
      LosingRunLoses();
    }
  }

  /** A fired event stays fired until a poll clears it, and every poll that does is ready. */
  lemma {:induction false} FiredStays(relay: bool, w: World, run: seq<Actor>)
    requires Run(relay, w, run).Some?
    ensures var r := Run(relay, w, run).value;
            && w.cleared <= r.cleared && r.cleared - w.cleared <= r.answered - w.answered
            && (w.flags.fired && r.cleared == w.cleared ==> r.flags.fired)
    decreases |run|
  {
    if run != [] {
      FiredStays(relay, Step(relay, w, run[0]).value, run[1..]);
    }
  }

  /** How far waiter, handler and semaphore are into their returns. */
  function Owed(w: World): nat {
    (if w.waiter == Disarm then 1 else 0) + w.flags.sem + (if w.handler == Rest then 0 else 1)
    + (if w.doorbell then 1 else 0)
  }

  predicate Paid(w: World) {
    && (w.waiter == Clear ==> w.flags.fired)
    && w.cleared + (if w.flags.fired then 1 else 0) <= w.signals
    && w.cleared <= w.answered
    && w.answered - w.cleared + Owed(w) + (if w.signaller == CheckArmed then 1 else 0) <= w.signals
  }

  lemma WaiterStaysPaid(w: World)
    requires Paid(w)
    ensures Paid(WaiterStep(w))
  {
  }

  lemma OthersStayPaid(relay: bool, w: World)
    requires Paid(w)
    ensures Paid(SignallerStep(w)) && (HandlerStep(relay, w).Some? ==> Paid(HandlerStep(relay, w).value))
  {
  }

  lemma {:induction false} RunStaysPaid(relay: bool, w: World, run: seq<Actor>)
    requires Paid(w) && Run(relay, w, run).Some?
    ensures Paid(Run(relay, w, run).value)
    decreases |run|
  {
    hide Paid;
    hide WaiterStep;
    hide SignallerStep;
    hide HandlerStep;
    if run != [] {
      WaiterStaysPaid(w);
      OthersStayPaid(relay, w);
      RunStaysPaid(relay, Step(relay, w, run[0]).value, run[1..]);
    }
  }

  /** No poll is ready without a signal: one signal makes at most two polls ready, one through each way. */
  lemma ReadyIsPaidFor(relay: bool, fired: bool, run: seq<Actor>)
    requires Run(relay, Start(fired), run).Some?
    ensures var w := Run(relay, Start(fired), run).value;
            w.cleared <= w.signals && w.answered - w.cleared <= w.signals && (w.signals == 0 ==> w.answered == 0)
  {
    RunStaysPaid(relay, Start(fired), run);
  }

  // ----- what flags, semaphore and doorbell hold, told from the accesses -----

  datatype Access = Arms | Disarms | Fires | Clears | Raises | Takes | Checks | PicksUp | Looks

  /** The access an actor makes next. */
  function AccessOf(w: World, a: Actor): Access {
    match a
    case WaiterMoves =>
      (match w.waiter
       case Idle => Arms
       case Arm => Arms
       case TryDown => if w.flags.sem > 0 then Takes else Looks
       case Disarm => Disarms
       case Clear => Clears
       case _ => Looks)
    case SignallerMoves => if w.signaller == Quiet then Fires else Checks
    case HandlerMoves => if w.handler == Rest then PicksUp else if w.handler == ClearArmed then Disarms else Raises
  }

  function Accesses(relay: bool, w: World, run: seq<Actor>): (h: seq<Access>)
    requires Run(relay, w, run).Some?
    decreases |run|
  {
    if run == [] then [] else [AccessOf(w, run[0])] + Accesses(relay, Step(relay, w, run[0]).value, run[1..])
  }

  /** Whether the last access among `on` and `off` was `on`. */
  function LastIs(h: seq<Access>, on: Access, off: Access, before: bool): bool {
    if h == [] then before
    else if h[|h| - 1] == on then true
    else if h[|h| - 1] == off then false
    else LastIs(h[..|h| - 1], on, off, before)
  }

  function Count(h: seq<Access>, x: Access): nat {
    if h == [] then 0 else Count(h[..|h| - 1], x) + (if h[|h| - 1] == x then 1 else 0)
  }

  /** A check that found `armed` set has rung, and nobody has picked it up since. */
  predicate Rung(h: seq<Access>) {
    && h != []
    && var init, last := h[..|h| - 1], h[|h| - 1];
       if last == PicksUp then false else Rung(init) || (last == Checks && LastIs(init, Arms, Disarms, false))
  }

  /** Every memory cell holds what the accesses so far have left in it, and every access has been accounted for. */
  predicate AsAccessed(relay: bool, fired: bool, w: World, h: seq<Access>) {
    && w.flags.armed == LastIs(h, Arms, Disarms, false)
    && w.flags.fired == LastIs(h, Fires, Clears, fired)
    && w.flags.sem + Count(h, Takes) == Count(h, Raises)
    && w.doorbell == Rung(h)
    && Count(h, Raises) + (if relay && w.handler != Rest then 1 else 0) == (if relay then Count(h, PicksUp) else 0)
    && (!relay ==> w.handler == Rest)
    && w.answered + (if w.waiter == Disarm then 1 else 0) == Count(h, Clears) + Count(h, Takes)
    && w.cleared == Count(h, Clears) && w.signals == Count(h, Fires) + (if fired then 1 else 0)
  }

  lemma OneMore(h: seq<Access>, x: Access)
    ensures forall y :: Count(h + [x], y) == Count(h, y) + (if y == x then 1 else 0)
    ensures forall on, off, b ::
              LastIs(h + [x], on, off, b)
              == (if x == on then true else if x == off then false else LastIs(h, on, off, b))
    ensures Rung(h + [x])
       <==> (if x == PicksUp then false else Rung(h) || (x == Checks && LastIs(h, Arms, Disarms, false)))
  {
    assert (h + [x])[..|h|] == h;
  }

  lemma StepAsAccessed(relay: bool, fired: bool, w: World, h: seq<Access>, a: Actor)
    requires AsAccessed(relay, fired, w, h) && Step(relay, w, a).Some?
    ensures AsAccessed(relay, fired, Step(relay, w, a).value, h + [AccessOf(w, a)])
  {
    OneMore(h, AccessOf(w, a));
    hide Count;
    hide LastIs;
    hide Rung;
  }

  lemma {:induction false} RunAsAccessed(relay: bool, fired: bool, w: World, h: seq<Access>, run: seq<Actor>)
    requires AsAccessed(relay, fired, w, h) && Run(relay, w, run).Some?
    ensures AsAccessed(relay, fired, Run(relay, w, run).value, h + Accesses(relay, w, run))
    decreases |run|
  {
    hide Step;
    hide AsAccessed;
    hide AccessOf;
    if run == [] {
      assert h + [] == h;
    } else {
      var w1, x := Step(relay, w, run[0]).value, AccessOf(w, run[0]);
      StepAsAccessed(relay, fired, w, h, run[0]);
      RunAsAccessed(relay, fired, w1, h + [x], run[1..]);
      assert h + [x] + Accesses(relay, w1, run[1..]) == h + ([x] + Accesses(relay, w1, run[1..]));
    }
  }

  lemma StartAsAccessed(relay: bool, fired: bool)
    ensures AsAccessed(relay, fired, Start(fired), [])
  {
  }

  /**
   * In every interleaving: `armed` and `fired` are what their last writer left, the doorbell is rung exactly when a
   * check has found `armed` set and nobody has picked it up since, the semaphore is what the handler has raised less
   * what polls have taken, the handler raises once for each doorbell it has picked up if it signals at all, and each
   * ready poll has cleared `fired` or taken one count.
   */
  lemma HoldsWhatWasWritten(relay: bool, fired: bool, run: seq<Actor>)
    requires Run(relay, Start(fired), run).Some?
    ensures AsAccessed(relay, fired, Run(relay, Start(fired), run).value, Accesses(relay, Start(fired), run))
  {
    StartAsAccessed(relay, fired);
    hide AsAccessed;
    hide Start;
    hide Run;
    RunAsAccessed(relay, fired, Start(fired), [], run);
    assert [] + Accesses(relay, Start(fired), run) == Accesses(relay, Start(fired), run);
  }

  // ----- the accessor's methods are these accesses, uninterrupted -----

  /**
   * A poll of the accessor is at most six accesses of the waiter with nothing in between, the first of a wait being
   * the one that arms.
   */
  lemma PollIsUninterrupted(w: World)
    requires w.waiter in {Idle, Parked, ReadFired}
    ensures var (f, ready) := PollAlone(if w.waiter == Idle then w.flags.(armed := true) else w.flags);
            exists n | 0 < n <= 6 ::
              var r := WaiterSteps(w, n);
              && r.flags == f && r.waiter == (if ready then Idle else Parked)
              && r.answered == w.answered + (if ready then 1 else 0)
              && r == w.(flags := f, waiter := r.waiter, cleared := r.cleared, answered := r.answered)
  {
    if w.waiter == ReadFired {
      var _ := PollFromReading(w);
    } else {
      var n := PollFromReading(WaiterStep(w));
      FirstStep(w, n);
      assert WaiterSteps(w, n + 1) == WaiterSteps(WaiterStep(w), n);
    }
  }

  lemma {:induction false} FirstStep(w: World, n: nat)
    ensures WaiterSteps(w, n + 1) == WaiterSteps(WaiterStep(w), n)
  {
    hide WaiterStep;
    if n > 0 {
      FirstStep(w, n - 1);
    }
  }

  lemma PollFromReading(w: World) returns (n: nat)
    requires w.waiter == ReadFired
    ensures 0 < n <= 5
    ensures var (f, ready), r := PollAlone(w.flags), WaiterSteps(w, n);
            && r.flags == f && r.waiter == (if ready then Idle else Parked)
            && r.answered == w.answered + (if ready then 1 else 0)
            && r == w.(flags := f, waiter := r.waiter, cleared := r.cleared, answered := r.answered)
  {
    n := if w.flags.fired then 2 else if w.flags.sem > 0 then 5 else 4;
    assert WaiterSteps(w, 2) == WaiterStep(WaiterStep(w)) by {
      assert WaiterSteps(w, 1) == WaiterStep(w);
    }
    if !w.flags.fired {
      assert WaiterSteps(w, 4) == WaiterStep(WaiterStep(WaiterSteps(w, 2))) by {
        assert WaiterSteps(w, 3) == WaiterStep(WaiterSteps(w, 2));
      }
      assert WaiterSteps(w, 5) == WaiterStep(WaiterSteps(w, 4));
    }
  }
}
