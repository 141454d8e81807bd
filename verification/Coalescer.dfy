/**
  The trigger coalescer (perpmirror/monitoring/coalescer.py) as interleaved steps of one event loop.

  The worker takes one step between two awaits; `Trigger` and `Stop` may come between any two of them.
*/
module Coalescer {
  /** Where the worker task stands. */
  datatype Place =
    | NotStarted   // no task, or a stop has awaited it and cleared it
    | AtLoop       // about to test the loop condition
    | Waiting      // parked in `event.wait()`
    | Woken        // the wait returned
    | Debouncing   // parked in the debounce sleep
    | Calling      // parked in the callback
    | Exited

  /** The coalescer's flags and worker, and the history its promises are about. */
  datatype State = State(
    event: bool,
    stopped: bool,
    place: Place,
    triggers: nat,    // how often `trigger` was called
    starts: nat,      // how often the callback was started
    returns_: nat,    // how often it returned or raised
    served: nat,      // how many triggers the latest callback start came after
    exits: nat)       // how often a worker has returned

  const INITIAL := State(false, false, NotStarted, 0, 0, 0, 0, 0)

  datatype Event = Start | Trigger | Stop | Work | Joined

  function Call(s: State): State {
    s.(place := Calling, starts := s.starts + 1, served := s.triggers)
  }

  function Exit(s: State): State {
    s.(place := Exited, exits := s.exits + 1)
  }

  /** The worker can move: it is started, has not exited, and is not parked on an unset event. */
  predicate CanWork(s: State) {
    !s.place.NotStarted? && !s.place.Exited? && (s.place.Waiting? ==> s.event)
  }

  function WorkerStep(debounce: bool, s: State): State
    requires CanWork(s)
  {
    match s.place
    case AtLoop => if s.stopped then Exit(s) else s.(place := Waiting)
    case Waiting => s.(place := Woken)
    case Woken =>
      if s.stopped then Exit(s)
      else if debounce then s.(event := false, place := Debouncing)
      else Call(s.(event := false))
    case Debouncing => Call(s.(event := false))
    case Calling => s.(place := AtLoop, returns_ := s.returns_ + 1)
  }

  /** A stop returns once the worker has. */
  predicate Enabled(s: State, event: Event) {
    (event == Work ==> CanWork(s)) && (event == Joined ==> s.stopped && s.place.Exited?)
  }

  function Next(debounce: bool, s: State, event: Event): State
    requires Enabled(s, event)
  {
    match event
    case Start => if s.place == NotStarted then s.(place := AtLoop) else s
    case Trigger => s.(event := true, triggers := s.triggers + 1)
    case Stop => s.(stopped := true, event := true)
    case Work => WorkerStep(debounce, s)
    case Joined => s.(place := NotStarted)
  }

  /** The state after one event, if it happens. */
  function Then(debounce: bool, s: State, event: Event): State {
    if Enabled(s, event) then Next(debounce, s, event) else s
  }

  /** The state after a trace; events that are not enabled do not happen. */
  function Run(debounce: bool, s: State, events: seq<Event>): State
    decreases |events|
  {
    if events == [] then s
    else Run(debounce, Then(debounce, s, events[0]), events[1..])
  }

  // ----- Safety -----

  function Count(b: bool): nat {
    if b then 1 else 0
  }

  /**
    A trigger that no callback start has come after is still visible to the worker; callbacks do not overlap;
    and every callback start has used up a trigger of its own.
  */
  predicate Inv(s: State) {
    && s.served <= s.triggers
    && (s.served < s.triggers ==> s.event || s.place.Debouncing?)
    && (s.place.Woken? ==> s.event)
    && s.starts == s.returns_ + Count(s.place.Calling?)
    && s.starts + Count(s.place.Debouncing?) + Count(s.event && !s.stopped) <= s.triggers
  }

  lemma StepKeepsInv(debounce: bool, s: State, event: Event)
    requires Inv(s)
    ensures
      var next := Then(debounce, s, event);
      Inv(next) && s.triggers <= next.triggers && s.served <= next.served
  {
    match event
    case Start =>
    case Trigger =>
    case Stop =>
    case Work =>
    case Joined =>
  }

  lemma {:induction false} RunKeepsInv(debounce: bool, s: State, events: seq<Event>)
    requires Inv(s)
    ensures Inv(Run(debounce, s, events))
    ensures s.triggers <= Run(debounce, s, events).triggers && s.served <= Run(debounce, s, events).served
    decreases |events|
  {
    if events != [] {
      hide Then, Inv;
      StepKeepsInv(debounce, s, events[0]);
      RunKeepsInv(debounce, Then(debounce, s, events[0]), events[1..]);
    }
  }

  /** In every interleaving: callbacks never overlap, and there are never more of them than triggers. */
  lemma CallbacksAreTriggered(debounce: bool, s: State, events: seq<Event>)
    requires Inv(s)
    ensures
      var last := Run(debounce, s, events);
      last.starts <= last.triggers && last.starts == if last.place.Calling? then last.returns_ + 1 else last.returns_
  {
    hide Run, Inv;
    RunKeepsInv(debounce, s, events);
    InvMeans(Run(debounce, s, events));
  }

  lemma InvMeans(s: State)
    requires Inv(s)
    ensures s.starts <= s.triggers && s.starts == if s.place.Calling? then s.returns_ + 1 else s.returns_
  {}

  // ----- No lost trigger -----

  /** How many worker steps it takes at most until a callback starts. */
  function StepsToCall(s: State): nat {
    match s.place
    case Debouncing => 1
    case Woken => 2
    case Waiting => 3
    case AtLoop => 4
    case Calling => 5
    case _ => 6
  }

  /** A started worker that has not been stopped. */
  predicate Live(s: State) {
    !s.stopped && !s.place.NotStarted? && !s.place.Exited?
  }

  /** How many of the events are steps of the worker. */
  function Works(events: seq<Event>): nat {
    if events == [] then 0 else Count(events[0] == Work) + Works(events[1..])
  }

  lemma WorkAdvances(debounce: bool, s: State, event: Event, due: nat)
    requires Inv(s) && Live(s) && event != Stop && s.served < due <= s.triggers
    ensures
      var next := Then(debounce, s, event);
      && CanWork(s)
      && (next.served >= due || (Live(next) && StepsToCall(next) + Count(event == Work) <= StepsToCall(s)))
  {}

  /**
    No lost trigger. From any state of any run, in any interleaving without a stop, the worker is not stuck
    while a trigger is unserved, and by the time it has taken its next five steps a callback has started that
    comes after every one of the first `due` triggers; triggers that keep coming do not delay it.
  */
  lemma {:induction false} TriggerIsServed(debounce: bool, s: State, events: seq<Event>, due: nat)
    requires Inv(s) && Live(s) && Stop !in events
    requires s.served < due <= s.triggers
    ensures CanWork(s) && StepsToCall(s) <= 5
    ensures Works(events) >= StepsToCall(s) ==> Run(debounce, s, events).served >= due
    decreases |events|
  {
    WorkAdvances(debounce, s, Work, due);
    if events != [] {
      var next := Then(debounce, s, events[0]);
      StepKeepsInv(debounce, s, events[0]);
      WorkAdvances(debounce, s, events[0], due);
      hide Then, Inv, StepsToCall;
      if next.served < due {
        TriggerIsServed(debounce, next, events[1..], due);
      } else {
        RunKeepsInv(debounce, next, events[1..]);
      }
    }
  }

  // ----- Bursts -----

  /** The worker on its own, until it parks or exits. */
  function Settle(debounce: bool, s: State): State
    requires Inv(s)
    decreases StepsToRest(s)
  {
    if CanWork(s) then
      StepKeepsInv(debounce, s, Work);
      Settle(debounce, WorkerStep(debounce, s))
    else s
  }

  /** How far the worker can go on its own: an event that is set is good for one more round. */
  function StepsToRest(s: State): nat {
    Count(s.event) * 6 +
    match s.place
    case Debouncing => 5
    case Calling => 4
    case AtLoop => 3
    case Waiting => 2
    case Woken => 1
    case _ => 0
  }

  function Triggered(s: State, n: nat): State {
    if n == 0 then s else s.(event := true, triggers := s.triggers + n)
  }

  /** Coming in one by one, that is what triggers do. */
  lemma {:induction false} TriggersAddUp(debounce: bool, s: State, n: nat)
    ensures Run(debounce, s, seq(n, _ => Trigger)) == Triggered(s, n)
    decreases n
  {
    if n > 0 {
      var events := seq(n, _ => Trigger);
      assert events[1..] == seq(n - 1, _ => Trigger);
      TriggersAddUp(debounce, Next(debounce, s, Trigger), n - 1);
    }
  }

  /**
    A burst of any size during one callback causes exactly one further run, which comes after all of it; no
    burst, no further run.
  */
  lemma BurstRunsOnce(debounce: bool, s: State, n: nat)
    requires Inv(s) && s.place.Calling? && !s.event && !s.stopped
    ensures Inv(Triggered(s, n))
    ensures
      var rest := Settle(debounce, Triggered(s, n));
      && rest.starts == s.starts + Count(n > 0)
      && rest.place.Waiting? && !rest.event
      && rest.served == rest.triggers == s.triggers + n
  {
    var burst := Triggered(s, n);
    var looped := SettleStep(debounce, burst);
    var waiting := SettleStep(debounce, looped);
    if n > 0 {
      var woken := SettleStep(debounce, waiting);
      var next := SettleStep(debounce, woken);
      var calling := next;
      if debounce {
        calling := SettleStep(debounce, next);
      }
      var again := SettleStep(debounce, calling);
      var parked := SettleStep(debounce, again);
      assert Settle(debounce, parked) == parked;
    }
  }

  /** What `n` triggers and any steps before the callback have come to: the worker is on its way to one start. */
  predicate Gathering(debounce: bool, s: State, now: State, steps: nat) {
    && Inv(now) && !now.stopped && now.starts == s.starts && now.served < now.triggers
    && match now.place
       case Waiting => steps == 0 && now.event
       case Woken => steps == 1
       case Debouncing => steps == 2 && debounce
       case _ => false
  }

  /** How many of the events are triggers. */
  function Triggers(events: seq<Event>): nat {
    if events == [] then 0 else Count(events[0] == Trigger) + Triggers(events[1..])
  }

  lemma {:induction false} StillGathering(debounce: bool, s: State, now: State, events: seq<Event>, steps: nat)
    requires Gathering(debounce, s, now, steps) && steps + Works(events) <= if debounce then 2 else 1
    requires forall event :: event in events ==> event == Trigger || event == Work
    ensures Gathering(debounce, s, Run(debounce, now, events), steps + Works(events))
    ensures Run(debounce, now, events).triggers == now.triggers + Triggers(events)
    decreases |events|
  {
    if events != [] {
      assert events[0] in events && forall event :: event in events[1..] ==> event in events;
      StepKeepsInv(debounce, now, events[0]);
      var next := Then(debounce, now, events[0]);
      StillGathering(debounce, s, next, events[1..], steps + Count(events[0] == Work));
    }
  }

  /** From there, one callback serves all of it. */
  lemma GatheringRunsOnce(debounce: bool, s: State, now: State, steps: nat)
    requires Gathering(debounce, s, now, steps)
    ensures
      var rest := Settle(debounce, now);
      && rest.starts == s.starts + 1 && rest.served == rest.triggers == now.triggers
      && rest.place.Waiting? && !rest.event
  {
    var woken := now;
    if now.place.Waiting? {
      woken := SettleStep(debounce, now);
    }
    var sleeping := woken;
    if debounce && woken.place.Woken? {
      sleeping := SettleStep(debounce, woken);
    }
    var calling := SettleStep(debounce, sleeping);
    var looped := SettleStep(debounce, calling);
    var parked := SettleStep(debounce, looped);
    assert Settle(debounce, parked) == parked;
  }

  /**
    Coalescing. A worker that waits with nothing to do is triggered, and before its callback starts (that is while
    it wakes up and, with a debounce, sleeps) more triggers come in, as many and whenever they like. One callback
    serves them all, and the worker waits again.
  */
  lemma TriggersBeforeTheCallbackRunOnce(debounce: bool, s: State, events: seq<Event>)
    requires Inv(s) && s.place.Waiting? && !s.event && !s.stopped
    requires events != [] && events[0] == Trigger && Works(events) <= if debounce then 2 else 1
    requires forall event :: event in events ==> event == Trigger || event == Work
    ensures Inv(Run(debounce, s, events))
    ensures
      var rest := Settle(debounce, Run(debounce, s, events));
      && rest.starts == s.starts + 1
      && rest.served == rest.triggers == s.triggers + Triggers(events)
      && rest.place.Waiting? && !rest.event
  {
    var first := Then(debounce, s, Trigger);
    StepKeepsInv(debounce, s, Trigger);
    assert forall event :: event in events[1..] ==> event in events;
    StillGathering(debounce, s, first, events[1..], 0);
    GatheringRunsOnce(debounce, s, Run(debounce, s, events), Works(events));
  }

  /** A start makes a worker live that is not stopped, and leaves one that exists alone. */
  lemma StartMakesLive(debounce: bool, s: State)
    requires Inv(s) && !s.stopped
    ensures
      var next := Then(debounce, s, Start);
      && Inv(next) && next.triggers == s.triggers && next.starts == s.starts
      && (s.place.NotStarted? || Live(s) ==> Live(next))
      && (!s.place.NotStarted? ==> next == s)
  {}

  lemma SettleStep(debounce: bool, s: State) returns (next: State)
    requires Inv(s) && CanWork(s)
    ensures next == WorkerStep(debounce, s) && Inv(next) && Settle(debounce, s) == Settle(debounce, next)
  {
    StepKeepsInv(debounce, s, Work);
    next := WorkerStep(debounce, s);
  }

  // ----- Shutdown -----

  /** After a stop, how many callbacks can still start. */
  function StartsLeft(s: State): nat {
    Count(s.place.Debouncing?)
  }

  /** How many steps the worker is from its exit. */
  function StepsToExit(s: State): nat {
    match s.place
    case Exited => 0
    case Woken => 1
    case Waiting => 2
    case AtLoop => 1
    case Calling => 2
    case Debouncing => 3
    case NotStarted => 2
  }

  /** The stop's own wake-up is not taken back before the worker has exited or will test the flag by itself. */
  predicate Stopping(s: State) {
    s.stopped && (s.place.Waiting? || s.place.Woken? ==> s.event)
  }

  /**
    Shutdown. Once stopped, whatever else happens, at most the callback whose debounce is under way starts,
    and the worker exits within its next three steps without waiting for another trigger. That goes for a
    worker that is started again after the stop has returned, too.
  */
  lemma {:induction false} StopEnds(debounce: bool, s: State, events: seq<Event>)
    requires Stopping(s)
    ensures
      var last := Run(debounce, s, events);
      && last.starts <= s.starts + StartsLeft(s) <= s.starts + 1
      && last.exits >= s.exits
      && (!s.place.NotStarted? && !s.place.Exited? && Works(events) >= StepsToExit(s) ==> last.exits > s.exits)
    ensures !s.place.NotStarted? && !s.place.Exited? ==> CanWork(s)
    decreases |events|
  {
    if events != [] {
      StopEnds(debounce, Then(debounce, s, events[0]), events[1..]);
    }
  }

  /** A stop puts the coalescer on that path from any state. */
  lemma StopStops(debounce: bool, s: State)
    requires Inv(s)
    ensures Stopping(Next(debounce, s, Stop)) && Next(debounce, s, Stop).starts == s.starts
  {}

  // ----- The class -----

  class ReconcileCoalescer {
    const debounce: bool
    var event: bool
    var stopped: bool
    var worker: Place
    ghost var triggers: nat
    ghost var starts: nat
    ghost var returns_: nat
    ghost var served: nat
    ghost var exits: nat

    constructor (debounce: bool)
      ensures this.debounce == debounce && Now() == INITIAL && Inv(Now())
    {
      this.debounce := debounce;
      event, stopped, worker := false, false, NotStarted;
      triggers, starts, returns_, served, exits := 0, 0, 0, 0, 0;
    }

    ghost function Now(): State
      reads this
    {
      State(event, stopped, worker, triggers, starts, returns_, served, exits)
    }

    method StartWorker()
      modifies this
      ensures Now() == Next(debounce, old(Now()), Start)
    {
      if worker == NotStarted {
        worker := AtLoop;
      }
    }

    method TriggerRun()
      modifies this
      ensures Now() == Next(debounce, old(Now()), Trigger)
    {
      event := true;
      triggers := triggers + 1;
    }

    /** The first half of `stop`. */
    method RequestStop()
      modifies this
      ensures Now() == Next(debounce, old(Now()), Stop)
    {
      stopped := true;
      event := true;
    }

    /** The second half of `stop`, once the worker has exited: the task is cleared, and a new one may be started. */
    method FinishStop()
      requires Enabled(Now(), Joined)
      modifies this
      ensures Now() == Next(debounce, old(Now()), Joined)
    {
      worker := NotStarted;
    }

    /** The worker from one await to the next. */
    method Resume()
      requires CanWork(Now())
      modifies this
      ensures Now() == Next(debounce, old(Now()), Work)
    {
      match worker {
        case AtLoop =>
          if stopped {
            Return();
          } else {
            worker := Waiting;
          }
        case Waiting =>
          worker := Woken;
        case Woken =>
          if stopped {
            Return();
          } else {
            event := false;
            if debounce {
              worker := Debouncing;
            } else {
              BeginCallback();
            }
          }
        case Debouncing =>
          event := false;
          BeginCallback();
        case Calling =>
          returns_ := returns_ + 1;
          worker := AtLoop;
      }
    }

    method Return()
      modifies this`worker, this`exits
      ensures Now() == Exit(old(Now()))
    {
      worker := Exited;
      exits := exits + 1;
    }

    method BeginCallback()
      modifies this`worker, this`starts, this`served
      ensures Now() == Call(old(Now()))
    {
      worker := Calling;
      starts := starts + 1;
      served := triggers;
    }
  }
}
