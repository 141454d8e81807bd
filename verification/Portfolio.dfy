/**
  Many runs of one follower at once (perpmirror/copy/reconciler.py: the per-key lock, the semaphore, and the
  awaits between a portfolio read and the order it clears).

  A run is a task that takes one step between two awaits. The events of a trace interleave the tasks freely.
  Decisions and orders are the functions of modules Risk, Executor and Reconciler.
*/
module Portfolio {
  import opened Wrappers
  import opened Models
  import opened Sums
  import opened Exchange
  import opened Executor
  import opened Reconciler
  import opened Motion
  import Risk

  /** Where a run stands. Every task here holds its key's lock and one permit of the semaphore. */
  datatype Task =
    | Ready(target: Target)                                                     // about to read its position
    | Observed(target: Target, actual: Option<Position>)                        // about to read the portfolio
    | Cleared(target: Target, actual: Option<Position>, notional: real)         // allowed to increase, order not placed
    | Trimming(target: Target, held: Position, notional: real)                  // allowed to reduce
    | Exiting(target: Target, held: Position, flipping: bool)                   // allowed to close
    | Verifying(target: Target)                                                 // a flip whose old side was closed

  /** The follower's account and its active runs, one per symbol. */
  datatype World = World(positions: map<string, Position>, tasks: map<string, Task>)

  datatype Event =
    | Start(target: Target)
    | Observe(symbol: string)
    | Check(symbol: string)
    | Submit(symbol: string, id: nat, response: Response)
    | Verify(symbol: string)
    | Finish(symbol: string)

  /** What the runs share: settings, the semaphore's permits, and what each symbol trades as. */
  datatype Shared = Shared(settings: Settings, permits: nat, markets: string -> Market)

  ghost predicate Tradable(sh: Shared) {
    forall s :: sh.markets(s).Ready()
  }

  ghost predicate Enabled(sh: Shared, w: World, event: Event) {
    match event
    case Start(t) => t.symbol !in w.tasks && |w.tasks| < sh.permits
    case Observe(s) => s in w.tasks && w.tasks[s].Ready?
    case Check(s) => s in w.tasks && w.tasks[s].Observed?
    case Submit(s, _, _) => s in w.tasks && (w.tasks[s].Cleared? || w.tasks[s].Trimming? || w.tasks[s].Exiting?)
    case Verify(s) => s in w.tasks && w.tasks[s].Verifying?
    case Finish(s) => s in w.tasks && w.tasks[s].Ready?
  }

  /** The run of a symbol moves on, or ends and gives back its lock and permit. */
  function MoveOn(w: World, symbol: string, task: Task): World {
    w.(tasks := w.tasks[symbol := task])
  }

  function End(w: World, symbol: string): World {
    w.(tasks := w.tasks - {symbol})
  }

  /** The world with the task of one symbol moved on, or ended. */
  function WithTask(w: World, symbol: string, task: Option<Task>): World {
    match task
    case Some(next) => MoveOn(w, symbol, next)
    case None => End(w, symbol)
  }

  /** The portfolio is read and judged in one step; the order it clears comes later. */
  ghost function Judge(sh: Shared, w: World, t: Target, actual: Option<Position>): Option<Task> {
    var c := sh.settings;
    match Classify(c, t, actual)
    case Noop => None
    case Flip =>
      if Risk.Check(c.risk, t, actual, w.positions, Close, AbsNotionalOf(actual)).Blocked? then None
      else Some(Exiting(t, actual.value, true))
    case Close =>
      if Risk.Check(c.risk, t, actual, w.positions, Close, AbsNotionalOf(actual)).Blocked? then None
      else Some(Exiting(t, actual.value, false))
    case Reduce =>
      if Risk.Check(c.risk, t, actual, w.positions, Reduce, OrderNotional(t, actual)).Blocked? then None
      else Some(Trimming(t, actual.value, OrderNotional(t, actual)))
    case action =>
      if Risk.Check(c.risk, t, actual, w.positions, action, OrderNotional(t, actual)).Blocked? then None
      else Some(Cleared(t, actual, OrderNotional(t, actual)))
  }

  /** An increasing or reducing order; without instrument metadata the run fails before it. */
  function AfterDelta(m: Market, w: World, symbol: string, t: Target, actual: Option<Position>, notional: real,
                      reduceOnly: bool,
                      id: nat, response: Response): World
  {
    if m.instrument.None? then End(w, symbol)
    else
      var effect := ExecuteDelta(false, m, m.instrument.value, t, actual, Leg(w.positions, symbol), notional,
                                 reduceOnly, id, response);
      var placed := w.(positions := WithLeg(w.positions, symbol, effect.position));
      if effect.outcome.Ok? then MoveOn(placed, symbol, Ready(t)) else End(placed, symbol)
  }

  function AfterSubmit(sh: Shared, w: World, symbol: string, id: nat, response: Response): World {
    var m := sh.markets(symbol);
    if symbol !in w.tasks then w
    else
      match w.tasks[symbol]
      case Cleared(t, actual, notional) => AfterDelta(m, w, symbol, t, actual, notional, false, id, response)
      case Trimming(t, held, notional) => AfterDelta(m, w, symbol, t, Some(held), notional, true, id, response)
      case Exiting(t, held, flipping) =>
        var effect := ExecuteClose(false, m, t, held, Leg(w.positions, symbol), id, response);
        var placed := w.(positions := WithLeg(w.positions, symbol, effect.position));
        if effect.outcome.Err? then End(placed, symbol)
        else MoveOn(placed, symbol, if flipping then Verifying(t) else Ready(t))
      case _ => w
  }

  /** A flip re-reads its position and the portfolio before it may open the new side. */
  ghost function JudgeNewSide(sh: Shared, w: World, t: Target): Option<Task> {
    if Leg(w.positions, t.symbol).Some? then None
    else if Risk.Check(sh.settings.risk, t, None, w.positions, Open, t.notional).Blocked? then None
    else Some(Cleared(t, None, t.notional))
  }

  ghost function Next(sh: Shared, w: World, event: Event): World
    requires Enabled(sh, w, event)
  {
    match event
    case Start(t) => MoveOn(w, t.symbol, Ready(t))
    case Observe(s) => MoveOn(w, s, Observed(w.tasks[s].target, Leg(w.positions, s)))
    case Check(s) => WithTask(w, s, Judge(sh, w, w.tasks[s].target, w.tasks[s].actual))
    case Submit(s, id, response) => AfterSubmit(sh, w, s, id, response)
    case Verify(s) => WithTask(w, s, JudgeNewSide(sh, w, w.tasks[s].target))
    case Finish(s) => End(w, s)
  }

  /** A trace runs from one world to another if each event is enabled when its turn comes. */
  ghost predicate Reaches(sh: Shared, from: World, events: seq<Event>, to: World)
    decreases |events|
  {
    if events == [] then from == to
    else
      var last := |events| - 1;
      exists mid ::
        && Reaches(sh, from, events[..last], mid)
        && Enabled(sh, mid, events[last]) && to == Next(sh, mid, events[last])
  }

  // ----- What is on its way -----

  /** The increases that have been cleared but not placed. */
  ghost function Pending(w: World): map<string, real> {
    map s | s in w.tasks && w.tasks[s].Cleared? :: w.tasks[s].notional
  }

  ghost function PendingOpens(w: World): set<string> {
    set s | s in w.tasks && w.tasks[s].Cleared? && w.tasks[s].actual.None?
  }

  ghost function Exposure(w: World): real {
    Risk.TotalNotional(w.positions) + Sum(Pending(w))
  }

  /** Open symbols together with the cleared opens. */
  ghost function OpenSet(w: World): set<string> {
    w.positions.Keys + PendingOpens(w)
  }

  /** Each task still sees its own position as it read it: nobody else touches that symbol. */
  ghost predicate TaskSound(sh: Shared, w: World, symbol: string, task: Task) {
    && task.target.symbol == symbol
    && match task
       case Ready(_) => true
       case Observed(_, actual) => actual == Leg(w.positions, symbol)
       case Cleared(t, actual, notional) =>
         && actual == Leg(w.positions, symbol)
         && t.side != Flat && 0.0 <= notional <= sh.settings.risk.maxOrderNotional
         && (actual.Some? ==> actual.value.side == t.side)
       case Trimming(_, actual, notional) => Some(actual) == Leg(w.positions, symbol) && 0.0 <= notional
       case Exiting(t, actual, flipping) =>
         Some(actual) == Leg(w.positions, symbol) && (flipping ==> t.side != Flat && t.notional > 0.0)
       case Verifying(t) => t.side != Flat && t.notional > 0.0
  }

  ghost predicate Sound(sh: Shared, w: World) {
    && Tradable(sh)
    && |w.tasks| <= sh.permits
    && (forall s :: s in w.positions ==> sh.markets(s).Booked(Some(w.positions[s])))
    && (forall s :: s in w.tasks ==> TaskSound(sh, w, s, w.tasks[s]))
  }

  /** `permits` runs may each have one cleared order; the last to be cleared saw the limit. */
  ghost predicate NotionalBounded(sh: Shared, w: World, start: real) {
    var risk := sh.settings.risk;
    Exposure(w) <= start || Exposure(w) <= risk.maxTotalNotional + Times(sh.permits - 1, risk.maxOrderNotional)
  }

  ghost predicate SymbolsBounded(sh: Shared, w: World, start: nat) {
    |OpenSet(w)| <= start || |OpenSet(w)| <= sh.settings.risk.maxOpenSymbols + sh.permits - 1
  }

  // ----- Bookkeeping -----

  lemma ExposureAfter(w: World, symbol: string, leg: Option<Position>, task: Option<Task>)
    ensures
      var tasks := match task case Some(now) => w.tasks[symbol := now] case None => w.tasks - {symbol};
      var after := World(WithLeg(w.positions, symbol, leg), tasks);
      var pendingNow := if task.Some? && task.value.Cleared? then task.value.notional else 0.0;
      && Exposure(after) == Exposure(w) - AbsNotionalOf(Leg(w.positions, symbol)) + AbsNotionalOf(leg)
                                        - At(Pending(w), symbol) + pendingNow
      && Pending(after) - {symbol} == Pending(w) - {symbol}
  {
    Risk.PortfolioTotal(w.positions, symbol, leg);
    Risk.PortfolioTotal(w.positions, symbol, Leg(w.positions, symbol));
    WithLegTwice(w.positions, symbol, None, None);
    SumRemove(Pending(w), symbol);
    var tasks := match task case Some(now) => w.tasks[symbol := now] case None => w.tasks - {symbol};
    var after := World(WithLeg(w.positions, symbol, leg), tasks);
    if task.Some? && task.value.Cleared? {
      assert Pending(after) == Pending(w)[symbol := task.value.notional];
      SumUpdate(Pending(w), symbol, task.value.notional);
    } else {
      assert Pending(after) == Pending(w) - {symbol};
    }
  }

  /** Other runs have at most one cleared order each. */
  lemma OthersPending(sh: Shared, w: World, symbol: string)
    requires Sound(sh, w) && symbol in w.tasks && !w.tasks[symbol].Cleared?
    requires 0.0 <= sh.settings.risk.maxOrderNotional
    ensures Sum(Pending(w)) <= Times(sh.permits - 1, sh.settings.risk.maxOrderNotional)
    ensures |PendingOpens(w)| <= sh.permits - 1
  {
    hide Sound, Pending, PendingOpens, Times;
    var limit := sh.settings.risk.maxOrderNotional;
    OtherTasks(sh, w, symbol);
    forall s | s in Pending(w)
      ensures Pending(w)[s] <= limit
    {
      PendingWithinLimit(sh, w, s);
    }
    SumBound(Pending(w), limit);
    MoreTimes(|Pending(w)|, sh.permits - 1, limit);
  }

  lemma PendingWithinLimit(sh: Shared, w: World, symbol: string)
    requires Sound(sh, w) && symbol in Pending(w)
    ensures 0.0 <= Pending(w)[symbol] <= sh.settings.risk.maxOrderNotional
  {
    TaskIsSound(sh, w, symbol);
  }

  lemma OtherTasks(sh: Shared, w: World, symbol: string)
    requires Sound(sh, w) && symbol in w.tasks && !w.tasks[symbol].Cleared?
    ensures |Pending(w)| <= sh.permits - 1 && |PendingOpens(w)| <= sh.permits - 1
  {
    hide TaskSound, Market.Booked;
    var others := w.tasks.Keys - {symbol};
    CountWithout(w.tasks.Keys, symbol);
    SubsetIsSmaller(Pending(w).Keys, others);
    SubsetIsSmaller(PendingOpens(w), others);
  }

  lemma MoreTimes(j: int, k: int, x: real)
    requires j <= k && 0.0 <= x
    ensures Times(j, x) <= Times(k, x)
  {}

  lemma {:induction false} SubsetIsSmaller(small: set<string>, large: set<string>)
    requires small <= large
    ensures |small| <= |large|
    decreases small
  {
    if small != {} {
      var x :| x in small;
      SubsetIsSmaller(small - {x}, large - {x});
    }
  }

  // ----- One step -----

  /** A step of one run leaves every other run and every other position alone. */
  ghost predicate TouchesOnly(w: World, after: World, symbol: string) {
    && after.positions - {symbol} == w.positions - {symbol}
    && after.tasks - {symbol} == w.tasks - {symbol}
  }

  lemma OthersStaySound(sh: Shared, w: World, after: World, symbol: string)
    requires Sound(sh, w) && TouchesOnly(w, after, symbol)
    requires symbol in after.tasks ==> TaskSound(sh, after, symbol, after.tasks[symbol])
    requires symbol in after.tasks ==> symbol in w.tasks || |w.tasks| < sh.permits
    requires sh.markets(symbol).Booked(Leg(after.positions, symbol))
    ensures Sound(sh, after)
  {
    hide Market.Booked, TaskSound;
    TaskCount(sh, w, after, symbol);
    forall s | s in after.tasks && s != symbol
      ensures TaskSound(sh, after, s, after.tasks[s])
    {
      OtherTaskStaysSound(sh, w, after, symbol, s);
    }
    forall s | s in after.positions && s != symbol
      ensures sh.markets(s).Booked(Some(after.positions[s]))
    {
      LegElsewhere(w.positions, after.positions, symbol, s);
    }
  }

  lemma OtherTaskStaysSound(sh: Shared, w: World, after: World, symbol: string, other: string)
    requires Sound(sh, w) && TouchesOnly(w, after, symbol) && other in after.tasks && other != symbol
    ensures TaskSound(sh, after, other, after.tasks[other])
  {
    hide TaskSound, Market.Booked;
    assert other in w.tasks - {symbol} && (w.tasks - {symbol})[other] == (after.tasks - {symbol})[other];
    TaskIsSound(sh, w, other);
    LegElsewhere(w.positions, after.positions, symbol, other);
    SameLegSameTask(sh, w, after, other, w.tasks[other]);
  }

  lemma SameLegSameTask(sh: Shared, w: World, after: World, symbol: string, task: Task)
    requires Leg(after.positions, symbol) == Leg(w.positions, symbol) && TaskSound(sh, w, symbol, task)
    ensures TaskSound(sh, after, symbol, task)
  {}

  lemma TaskCount(sh: Shared, w: World, after: World, symbol: string)
    requires after.tasks - {symbol} == w.tasks - {symbol} && |w.tasks| <= sh.permits
    requires symbol in after.tasks ==> symbol in w.tasks || |w.tasks| < sh.permits
    ensures |after.tasks| <= sh.permits
  {
    assert after.tasks.Keys - {symbol} == (after.tasks - {symbol}).Keys;
    assert w.tasks.Keys - {symbol} == (w.tasks - {symbol}).Keys;
    CountWithout(after.tasks.Keys, symbol);
    CountWithout(w.tasks.Keys, symbol);
  }

  lemma CountWithout(s: set<string>, x: string)
    ensures |s| == |s - {x}| + (if x in s then 1 else 0)
  {
    if x in s {
      assert s == (s - {x}) + {x};
    } else {
      assert s == s - {x};
    }
  }

  lemma LegElsewhere(positions: map<string, Position>, after: map<string, Position>, symbol: string, other: string)
    requires after - {symbol} == positions - {symbol} && other != symbol
    ensures Leg(after, other) == Leg(positions, other)
  {
    assert other in after <==> other in after - {symbol};
    assert other in positions <==> other in positions - {symbol};
    assert other in after ==> after[other] == (after - {symbol})[other];
  }

  /** What an order of a run does to its own position: no more than the increase that was cleared. */
  lemma OrderEffect(sh: Shared, w: World, symbol: string, id: nat,
                    response: Response) returns (leg: Option<Position>, task: Option<Task>)
    requires Sound(sh, w) && Enabled(sh, w, Submit(symbol, id, response))
    ensures sh.markets(symbol).Booked(leg)
    ensures AbsNotionalOf(leg) <= AbsNotionalOf(Leg(w.positions, symbol)) + At(Pending(w), symbol)
    ensures leg.Some? ==> symbol in OpenSet(w)
    ensures task.Some? ==> task.value.target.symbol == symbol && (task.value.Ready? || task.value.Verifying?)
    ensures task.Some? && task.value.Verifying? ==> task.value.target.side != Flat && task.value.target.notional > 0.0
    ensures AfterSubmit(sh, w, symbol, id, response) ==
        World(WithLeg(w.positions, symbol, leg),
              match task case Some(next) => w.tasks[symbol := next] case None => w.tasks - {symbol})
  {
    var m, old_ := sh.markets(symbol), Leg(w.positions, symbol);
    assert TaskSound(sh, w, symbol, w.tasks[symbol]);
    assert m.Ready() && m.Booked(old_);
    SideMatchesValue(m, old_);
    var effect: Effect;
    match w.tasks[symbol] {
      case Cleared(t, actual, notional) =>
        effect := ExecuteDelta(false, m, m.instrument.value, t, actual, old_, notional, false, id, response);
        IncreaseMoves(m, t, old_, notional, id, response);
        task := if effect.outcome.Ok? then Some(Ready(t)) else None;
      case Trimming(t, held, notional) =>
        effect := ExecuteDelta(false, m, m.instrument.value, t, Some(held), old_, notional, true, id, response);
        ReduceMoves(m, t, held, notional, id, response);
        task := if effect.outcome.Ok? then Some(Ready(t)) else None;
      case Exiting(t, held, flipping) =>
        effect := ExecuteClose(false, m, t, held, old_, id, response);
        CloseMoves(m, t, held, id, response);
        task := if effect.outcome.Err? then None else Some(if flipping then Verifying(t) else Ready(t));
    }
    leg := effect.position;
    SideMatchesValue(m, leg);
  }

  /** Placing a cleared order turns at most what was pending into exposure. */
  lemma SubmitKeeps(sh: Shared, w: World, symbol: string, id: nat, response: Response)
    requires Sound(sh, w) && Enabled(sh, w, Submit(symbol, id, response))
    ensures
      var after := AfterSubmit(sh, w, symbol, id, response);
      Sound(sh, after) && Exposure(after) <= Exposure(w) && OpenSet(after) <= OpenSet(w)
  {
    var leg, task := OrderEffect(sh, w, symbol, id, response);
    var after := AfterSubmit(sh, w, symbol, id, response);
    hide AfterSubmit, Market.Booked, Exposure, At, AbsNotionalOf, Sound, Pending;
    ExposureAfter(w, symbol, leg, task);
    OrderTouchesOnly(w, after, symbol, leg, task);
    OthersStaySound(sh, w, after, symbol);
  }

  lemma OrderTouchesOnly(w: World, after: World, symbol: string, leg: Option<Position>, task: Option<Task>)
    requires after == World(WithLeg(w.positions, symbol, leg),
                            match task case Some(next) => w.tasks[symbol := next] case None => w.tasks - {symbol})
    ensures TouchesOnly(w, after, symbol)
    ensures Leg(after.positions, symbol) == leg
    ensures symbol in after.tasks <==> task.Some?
    ensures task.Some? ==> after.tasks[symbol] == task.value
    ensures leg.None? || symbol in OpenSet(w) ==>
      (task.Some? && task.value.Cleared? && task.value.actual.None? ==> symbol in OpenSet(w)) ==>
        OpenSet(after) <= OpenSet(w)
  {
    assert after.positions - {symbol} == w.positions - {symbol};
    assert after.tasks - {symbol} == w.tasks - {symbol};
  }

  /** A check that clears an increase has seen the limits hold with that increase in. */
  lemma ClearKeeps(sh: Shared, w: World, symbol: string, t: Target, actual: Option<Position>, action: Action)
    requires Sound(sh, w)
    requires symbol in w.tasks && !w.tasks[symbol].Cleared? && t.symbol == symbol && actual == Leg(w.positions, symbol)
    requires action in {Open, Add} && t.side != Flat && t.notional > 0.0
    requires action == Open ==> actual.None?
    requires action == Add ==> actual.Some? && actual.value.side == t.side && actual.value.AbsNotional() < t.notional
    requires Risk.Check(sh.settings.risk, t, actual, w.positions, action, OrderNotional(t, actual)).Allowed?
    ensures
      var after := MoveOn(w, symbol, Cleared(t, actual, OrderNotional(t, actual)));
      && Sound(sh, after)
      && Exposure(after) <= sh.settings.risk.maxTotalNotional + Times(sh.permits - 1, sh.settings.risk.maxOrderNotional)
      && (OpenSet(after) <= OpenSet(w) || |OpenSet(after)| <= sh.settings.risk.maxOpenSymbols + sh.permits - 1)
  {
    var notional := OrderNotional(t, actual);
    var task := Cleared(t, actual, notional);
    var after := MoveOn(w, symbol, task);
    hide Market.Booked, Risk.TotalNotional, Sum, Times, Position.AbsNotional, Sound, WithLeg, Leg, Pending;
    assert notional == t.notional - AbsNotionalOf(actual) && 0.0 <= notional <= sh.settings.risk.maxOrderNotional;
    assert At(Pending(w), symbol) == 0.0 by {
      NothingPending(w, symbol);
    }
    OthersPending(sh, w, symbol);
    WithLegTwice(w.positions, symbol, None, None);
    ExposureAfter(w, symbol, actual, Some(task));
    OrderTouchesOnly(w, after, symbol, actual, Some(task));
    OwnPositionBooked(sh, w, symbol);
    OthersStaySound(sh, w, after, symbol);
    OpensAfterClear(sh, w, symbol, task);
  }

  lemma NothingPending(w: World, symbol: string)
    requires symbol in w.tasks && !w.tasks[symbol].Cleared?
    ensures At(Pending(w), symbol) == 0.0
  {}

  lemma OpensAfterClear(sh: Shared, w: World, symbol: string, task: Task)
    requires task.Cleared? && task.actual == Leg(w.positions, symbol)
    requires |PendingOpens(w)| <= sh.permits - 1
    requires task.actual.None? ==> |w.positions| < sh.settings.risk.maxOpenSymbols
    ensures
      var after := MoveOn(w, symbol, task);
      OpenSet(after) <= OpenSet(w) || |OpenSet(after)| <= sh.settings.risk.maxOpenSymbols + sh.permits - 1
  {
    var after := MoveOn(w, symbol, task);
    if task.actual.None? {
      var all := w.positions.Keys + (PendingOpens(w) + {symbol});
      assert OpenSet(after) <= all;
      SubsetIsSmaller(OpenSet(after), all);
    }
  }

  lemma OwnPositionBooked(sh: Shared, w: World, symbol: string)
    requires Sound(sh, w)
    ensures sh.markets(symbol).Booked(Leg(w.positions, symbol))
  {}

  /** Steps that only move a run's own task, and clear nothing, keep everything. */
  lemma QuietStep(sh: Shared, w: World, symbol: string, task: Option<Task>)
    requires Sound(sh, w)
    requires task.Some? ==> symbol in w.tasks || |w.tasks| < sh.permits
    requires task.Some? ==> !task.value.Cleared? && TaskSound(sh, w, symbol, task.value)
    ensures
      var after := WithTask(w, symbol, task);
      Sound(sh, after) && Exposure(after) <= Exposure(w) && OpenSet(after) <= OpenSet(w)
  {
    var after := WithTask(w, symbol, task);
    var leg := Leg(w.positions, symbol);
    WithLegTwice(w.positions, symbol, None, None);
    OwnPositionBooked(sh, w, symbol);
    assert symbol in w.tasks ==> TaskSound(sh, w, symbol, w.tasks[symbol]);
    assert 0.0 <= At(Pending(w), symbol);
    hide Market.Booked, Sound, Exposure, Pending, WithLeg, Leg, At;
    if task.Some? {
      SameLegSameTask(sh, w, after, symbol, task.value);
    }
    hide TaskSound;
    ExposureAfter(w, symbol, leg, task);
    OrderTouchesOnly(w, after, symbol, leg, task);
    OthersStaySound(sh, w, after, symbol);
  }

  ghost predicate Held(sh: Shared, w: World, exposure: real, symbols: nat) {
    Sound(sh, w) && NotionalBounded(sh, w, exposure) && SymbolsBounded(sh, w, symbols)
  }

  lemma NoMoreKeeps(sh: Shared, w: World, after: World, exposure: real, symbols: nat)
    requires Held(sh, w, exposure, symbols)
    requires Sound(sh, after) && Exposure(after) <= Exposure(w) && OpenSet(after) <= OpenSet(w)
    ensures Held(sh, after, exposure, symbols)
  {
    hide Sound, Exposure, OpenSet, Times;
    SubsetIsSmaller(OpenSet(after), OpenSet(w));
  }

  lemma ClearHolds(sh: Shared, w: World, symbol: string, t: Target, actual: Option<Position>, action: Action,
                   exposure: real, symbols: nat)
    requires Held(sh, w, exposure, symbols)
    requires symbol in w.tasks && !w.tasks[symbol].Cleared? && t.symbol == symbol && actual == Leg(w.positions, symbol)
    requires action in {Open, Add} && t.side != Flat && t.notional > 0.0
    requires action == Open ==> actual.None?
    requires action == Add ==> actual.Some? && actual.value.side == t.side && actual.value.AbsNotional() < t.notional
    requires Risk.Check(sh.settings.risk, t, actual, w.positions, action, OrderNotional(t, actual)).Allowed?
    ensures Held(sh, WithTask(w, symbol, Some(Cleared(t, actual, OrderNotional(t, actual)))), exposure, symbols)
  {
    hide Risk.Check, Sound, Exposure, OpenSet, Times, OrderNotional;
    ClearKeeps(sh, w, symbol, t, actual, action);
    var after := MoveOn(w, symbol, Cleared(t, actual, OrderNotional(t, actual)));
    if OpenSet(after) <= OpenSet(w) {
      SubsetIsSmaller(OpenSet(after), OpenSet(w));
    }
  }

  lemma CheckKeeps(sh: Shared, w: World, symbol: string, exposure: real, symbols: nat)
    requires Held(sh, w, exposure, symbols) && Enabled(sh, w, Check(symbol))
    ensures Held(sh, WithTask(w, symbol, Judge(sh, w, w.tasks[symbol].target, w.tasks[symbol].actual)), exposure,
                 symbols)
  {
    var t, actual := w.tasks[symbol].target, w.tasks[symbol].actual;
    assert TaskSound(sh, w, symbol, w.tasks[symbol]);
    OwnPositionBooked(sh, w, symbol);
    var action := Classify(sh.settings, t, actual);
    ClassifyTask(sh, w, symbol, t, actual);
    hide Held, Risk.Check, Market.Booked, Classify, Sound;
    var task := Judge(sh, w, t, actual);
    if action in {Open, Add} && task.Some? {
      ClearHolds(sh, w, symbol, t, actual, action, exposure, symbols);
    } else {
      HeldIsSound(sh, w, exposure, symbols);
      QuietStep(sh, w, symbol, task);
      NoMoreKeeps(sh, w, WithTask(w, symbol, task), exposure, symbols);
    }
  }

  lemma HeldIsSound(sh: Shared, w: World, exposure: real, symbols: nat)
    requires Held(sh, w, exposure, symbols)
    ensures Sound(sh, w)
  {
    hide Sound;
  }

  /** What a classification says, for a position that is booked. */
  lemma ClassifyTask(sh: Shared, w: World, symbol: string, t: Target, actual: Option<Position>)
    requires sh.markets(symbol).Ready() && sh.markets(symbol).Booked(actual)
    ensures
      match Classify(sh.settings, t, actual)
      case Open => t.side != Flat && t.notional > 0.0 && actual.None?
      case Add =>
        && t.side != Flat && t.notional > 0.0
        && actual.Some? && actual.value.side == t.side && actual.value.AbsNotional() < t.notional
      case Flip => t.side != Flat && t.notional > 0.0 && actual.Some?
      case Reduce => actual.Some? && 0.0 <= OrderNotional(t, actual)
      case Close => actual.Some?
      case _ => true
    ensures Classify(sh.settings, t, actual) in {Open, Add, Flip, Reduce, Close, Noop}
  {
    hide Tolerance;
  }

  lemma VerifyKeeps(sh: Shared, w: World, symbol: string, exposure: real, symbols: nat)
    requires Held(sh, w, exposure, symbols) && Enabled(sh, w, Verify(symbol))
    ensures Held(sh, WithTask(w, symbol, JudgeNewSide(sh, w, w.tasks[symbol].target)), exposure, symbols)
  {
    var t := w.tasks[symbol].target;
    assert TaskSound(sh, w, symbol, w.tasks[symbol]);
    hide Held, Risk.Check, Market.Booked, Sound;
    var task := JudgeNewSide(sh, w, t);
    if task.Some? {
      ClearHolds(sh, w, symbol, t, None, Open, exposure, symbols);
    } else {
      HeldIsSound(sh, w, exposure, symbols);
      QuietStep(sh, w, symbol, task);
      NoMoreKeeps(sh, w, WithTask(w, symbol, task), exposure, symbols);
    }
  }

  lemma TaskIsSound(sh: Shared, w: World, symbol: string)
    requires Sound(sh, w) && symbol in w.tasks
    ensures TaskSound(sh, w, symbol, w.tasks[symbol])
  {
    hide TaskSound, Market.Booked;
  }

  /** Every step of every run keeps the bounds. */
  lemma StepKeeps(sh: Shared, w: World, event: Event, exposure: real, symbols: nat)
    requires Held(sh, w, exposure, symbols) && Tradable(sh) && Enabled(sh, w, event)
    ensures Held(sh, Next(sh, w, event), exposure, symbols)
  {
    hide Held, Judge, JudgeNewSide, AfterSubmit, Market.Booked, Sound, Exposure, OpenSet, Tradable;
    HeldIsSound(sh, w, exposure, symbols);
    match event
    case Start(t) =>
      QuietStep(sh, w, t.symbol, Some(Ready(t)));
      NoMoreKeeps(sh, w, Next(sh, w, event), exposure, symbols);
    case Observe(s) =>
      TaskIsSound(sh, w, s);
      QuietStep(sh, w, s, Some(Observed(w.tasks[s].target, Leg(w.positions, s))));
      NoMoreKeeps(sh, w, Next(sh, w, event), exposure, symbols);
    case Check(s) =>
      CheckKeeps(sh, w, s, exposure, symbols);
    case Submit(s, id, response) =>
      SubmitKeeps(sh, w, s, id, response);
      NoMoreKeeps(sh, w, Next(sh, w, event), exposure, symbols);
    case Verify(s) =>
      VerifyKeeps(sh, w, s, exposure, symbols);
    case Finish(s) =>
      QuietStep(sh, w, s, None);
      NoMoreKeeps(sh, w, Next(sh, w, event), exposure, symbols);
  }

  lemma {:induction false} TraceKeeps(sh: Shared, from: World, events: seq<Event>, to: World, exposure: real,
                                      symbols: nat)
    requires Tradable(sh) && Held(sh, from, exposure, symbols)
    requires Reaches(sh, from, events, to)
    ensures Held(sh, to, exposure, symbols)
    decreases |events|
  {
    hide Held, Next, Enabled;
    if events != [] {
      var last := |events| - 1;
      var mid :|
        Reaches(sh, from, events[..last], mid) && Enabled(sh, mid, events[last]) && to == Next(sh, mid, events[last]);
      TraceKeeps(sh, from, events[..last], mid, exposure, symbols);
      StepKeeps(sh, mid, events[last], exposure, symbols);
    }
  }

  /** The account before any run: booked positions and no tasks. */
  ghost predicate AtRest(sh: Shared, w: World) {
    && w.tasks == map[]
    && forall s :: s in w.positions ==> sh.markets(s).Ready() && sh.markets(s).Booked(Some(w.positions[s]))
  }

  /**
    The portfolio limits under concurrency. Over every interleaving of a follower's runs under a semaphore of
    k permits, the open notional with what is cleared but not placed exceeds the total limit by at most k - 1
    orders of maximal size, and the open symbols with the cleared opens exceed theirs by at most k - 1,
    unless the account was already beyond when the runs began. With one permit these are the plain limits.
  */
  lemma ConcurrentRunsStayBounded(sh: Shared, from: World, events: seq<Event>, to: World)
    requires Tradable(sh) && AtRest(sh, from) && Reaches(sh, from, events, to)
    ensures
      var risk := sh.settings.risk;
      var start := Risk.TotalNotional(from.positions);
      && Exposure(to) <= Max(start, risk.maxTotalNotional + Times(sh.permits - 1, risk.maxOrderNotional))
      && (|OpenSet(to)| <= |from.positions| || |OpenSet(to)| <= risk.maxOpenSymbols + sh.permits - 1)
      && Risk.TotalNotional(to.positions) <= Exposure(to) && to.positions.Keys <= OpenSet(to)
    ensures
      var risk := sh.settings.risk;
      sh.permits == 1 ==>
        && Risk.TotalNotional(to.positions) <= Max(Risk.TotalNotional(from.positions), risk.maxTotalNotional)
        && (|to.positions| <= |from.positions| || |to.positions| <= risk.maxOpenSymbols)
  {
    hide Held, Reaches, AtRest, Exposure, OpenSet, Times, Risk.TotalNotional;
    RestIsHeld(sh, from);
    TraceKeeps(sh, from, events, to, Risk.TotalNotional(from.positions), |from.positions|);
    HeldMeans(sh, to, Risk.TotalNotional(from.positions), |from.positions|);
    NoTimes(sh.settings.risk.maxOrderNotional);
  }

  lemma RestIsHeld(sh: Shared, w: World)
    requires Tradable(sh) && AtRest(sh, w)
    ensures Held(sh, w, Risk.TotalNotional(w.positions), |w.positions|)
  {
    hide Risk.TotalNotional, Market.Booked, Market.Ready, Times;
    assert Pending(w) == map[] && PendingOpens(w) == {};
    assert OpenSet(w) == w.positions.Keys;
  }

  lemma HeldMeans(sh: Shared, w: World, exposure: real, symbols: nat)
    requires Held(sh, w, exposure, symbols)
    ensures
      var risk := sh.settings.risk;
      && Exposure(w) <= Max(exposure, risk.maxTotalNotional + Times(sh.permits - 1, risk.maxOrderNotional))
      && (|OpenSet(w)| <= symbols || |OpenSet(w)| <= risk.maxOpenSymbols + sh.permits - 1)
      && Risk.TotalNotional(w.positions) <= Exposure(w)
      && |w.positions| <= |OpenSet(w)| && w.positions.Keys <= OpenSet(w)
  {
    hide Risk.TotalNotional, Market.Booked, Times, Sum;
    forall s | s in Pending(w)
      ensures 0.0 <= Pending(w)[s]
    {
      PendingWithinLimit(sh, w, s);
    }
    SumNonNegative(Pending(w));
    SubsetIsSmaller(w.positions.Keys, OpenSet(w));
  }

  lemma NoTimes(x: real)
    ensures Times(0, x) == 0.0
  {}

  // ----- The tasks are the runs -----

  lemma OneMore(sh: Shared, from: World, events: seq<Event>, mid: World, event: Event)
    requires Reaches(sh, from, events, mid) && Enabled(sh, mid, event)
    ensures Reaches(sh, from, events + [event], Next(sh, mid, event))
  {
    hide Next, Enabled;
    var more := events + [event];
    assert more[..|more| - 1] == events && more[|more| - 1] == event;
  }

  /** The world agrees with an action's effect: its position is in place, and the run goes on exactly with receipts. */
  ghost predicate Did(w: World, symbol: string, t: Target, effect: ActionEffect, after: World) {
    && after.positions == WithLeg(w.positions, symbol, effect.position)
    && (symbol in after.tasks && after.tasks[symbol] == Ready(t) <==> effect.outcome.Orders?)
  }

  ghost function Checked(sh: Shared, w: World, t: Target, actual: Option<Position>): World {
    WithTask(w, t.symbol, Judge(sh, w, t, actual))
  }

  /** The check and, if it clears one, the order. */
  ghost function CheckedAndOrdered(sh: Shared, w: World, t: Target, actual: Option<Position>, id: nat,
                                   response: Response): World
  {
    AfterSubmit(sh, Checked(sh, w, t, actual), t.symbol, id, response)
  }

  /** The world after a flip's check, closing order, re-read and opening order, as far as it gets. */
  ghost function Flipped(sh: Shared, w: World, t: Target, actual: Option<Position>, id: nat,
                         script: nat -> Response): World
  {
    var half := CheckedAndOrdered(sh, w, t, actual, id, script(id));
    if t.symbol in half.tasks then
      AfterSubmit(sh, WithTask(half, t.symbol, JudgeNewSide(sh, half, t)), t.symbol, id + 1, script(id + 1))
    else half
  }

  /** A task that has just read its position. */
  ghost predicate Acting(w: World, t: Target, actual: Option<Position>) {
    t.symbol in w.tasks && w.tasks[t.symbol] == Observed(t, actual) && actual == Leg(w.positions, t.symbol)
  }

  lemma CheckAndOrderEvents(sh: Shared, w: World, t: Target, actual: Option<Position>, id: nat, response: Response)
    returns (events: seq<Event>)
    requires Acting(w, t, actual)
    ensures Reaches(sh, w, events, CheckedAndOrdered(sh, w, t, actual, id, response))
  {
    var checked := Checked(sh, w, t, actual);
    OneMore(sh, w, [], w, Check(t.symbol));
    events := [] + [Check(t.symbol)];
    if Judge(sh, w, t, actual).Some? {
      JudgedTask(sh, w, t, actual);
      hide Judge, AfterSubmit, Reaches;
      OneMore(sh, w, events, checked, Submit(t.symbol, id, response));
      events := events + [Submit(t.symbol, id, response)];
    }
  }

  lemma JudgedTask(sh: Shared, w: World, t: Target, actual: Option<Position>)
    requires Judge(sh, w, t, actual).Some?
    ensures
      var task := Judge(sh, w, t, actual).value;
      task.target == t && (task.Cleared? || task.Trimming? || task.Exiting?)
  {
    hide Risk.Check, OrderNotional, Classify;
  }

  /** What the check of an OPEN, ADD or REDUCE clears. */
  lemma JudgeDelta(sh: Shared, w: World, t: Target, actual: Option<Position>)
    requires Classify(sh.settings, t, actual) in {Open, Add, Reduce}
    ensures
      var action := Classify(sh.settings, t, actual);
      var notional := OrderNotional(t, actual);
      Judge(sh, w, t, actual) ==
        if Risk.Check(sh.settings.risk, t, actual, w.positions, action, notional).Blocked? then None
        else if action == Reduce then Some(Trimming(t, actual.value, notional))
        else Some(Cleared(t, actual, notional))
    ensures Classify(sh.settings, t, actual) == Reduce ==> actual.Some?
  {
    hide Risk.Check, OrderNotional;
  }

  /** The environment of a run that nobody interrupts from `w` on. */
  ghost predicate Undisturbed(sh: Shared, w: World, t: Target, e: Env, id: nat) {
    && !sh.settings.dryRun && e.market == sh.markets(t.symbol) && e.firstOrder == id
    && forall k, own :: e.Portfolio(k, t.symbol, own) == WithLeg(w.positions, t.symbol, own)
  }

  /** What an increasing or reducing order leaves, with or without instrument metadata. */
  lemma DeltaDone(m: Market, w: World, symbol: string, t: Target, actual: Option<Position>, notional: real,
                  reduceOnly: bool,
                  id: nat, response: Response)
    ensures
      var after := AfterDelta(m, w, symbol, t, actual, notional, reduceOnly, id, response);
      match m.instrument
      case None => after == End(w, symbol)
      case Some(i) =>
        var effect := ExecuteDelta(false, m, i, t, actual, Leg(w.positions, symbol), notional, reduceOnly, id,
                                   response);
        && after.positions == WithLeg(w.positions, symbol, effect.position)
        && (symbol in after.tasks && after.tasks[symbol] == Ready(t) <==> effect.outcome.Ok?)
  {
    hide ExecuteDelta, WithLeg;
  }

  lemma DidDelta(sh: Shared, w: World, t: Target, actual: Option<Position>, e: Env, id: nat)
    requires Acting(w, t, actual) && Undisturbed(sh, w, t, e, id)
    requires Classify(sh.settings, t, actual) in {Open, Add, Reduce}
    ensures Did(w, t.symbol, t, DeltaAction(sh.settings, e, t, actual, Classify(sh.settings, t, actual), 0, 0),
                CheckedAndOrdered(sh, w, t, actual, id, e.script(id)))
  {
    hide Classify, Risk.Check, ExecuteDelta, WithLeg, OrderNotional, Judge, AfterDelta;
    WithLegTwice(w.positions, t.symbol, None, None);
    assert e.Portfolio(0, t.symbol, actual) == w.positions;
    JudgeDelta(sh, w, t, actual);
    var task := Judge(sh, w, t, actual);
    var action, notional := Classify(sh.settings, t, actual), OrderNotional(t, actual);
    if task.Some? {
      var now := MoveOn(w, t.symbol, task.value);
      if action == Reduce {
        assert actual == Some(actual.value);
        DeltaDone(e.market, now, t.symbol, t, actual, notional, true, id, e.script(id));
      } else {
        DeltaDone(e.market, now, t.symbol, t, actual, notional, false, id, e.script(id));
      }
    }
  }

  /** What the check and the closing order of a CLOSE or FLIP leave. */
  lemma ExitPlaced(sh: Shared, w: World, t: Target, position: Position, id: nat, response: Response)
    requires Classify(sh.settings, t, Some(position)) in {Flip, Close} && Leg(w.positions, t.symbol) == Some(position)
    ensures
      var actual := Some(position);
      var after := CheckedAndOrdered(sh, w, t, actual, id, response);
      if Risk.Check(sh.settings.risk, t, actual, w.positions, Close, position.AbsNotional()).Blocked? then
        after.positions == w.positions && t.symbol !in after.tasks
      else
        var closed := ExecuteClose(false, sh.markets(t.symbol), t, position, actual, id, response);
        && after.positions == WithLeg(w.positions, t.symbol, closed.position)
        && (t.symbol in after.tasks <==> closed.outcome.Ok?)
        && (t.symbol in after.tasks ==>
              after.tasks[t.symbol] == if Classify(sh.settings, t, actual) == Flip then Verifying(t) else Ready(t))
  {
    hide Risk.Check, ExecuteClose, WithLeg, AfterDelta, OrderNotional;
  }

  lemma DidClose(sh: Shared, w: World, t: Target, position: Position, e: Env, id: nat)
    requires Acting(w, t, Some(position)) && Undisturbed(sh, w, t, e, id)
    requires Classify(sh.settings, t, Some(position)) == Close
    ensures Did(w, t.symbol, t, CloseAction(sh.settings, e, t, Some(position), 0, 0),
                CheckedAndOrdered(sh, w, t, Some(position), id, e.script(id)))
  {
    hide Risk.Check, ExecuteClose, WithLeg, Classify, CheckedAndOrdered;
    WithLegTwice(w.positions, t.symbol, None, None);
    assert e.Portfolio(0, t.symbol, Some(position)) == w.positions;
    ExitPlaced(sh, w, t, position, id, e.script(id));
  }

  lemma FlipEvents(sh: Shared, w: World, t: Target, position: Position, id: nat,
                   script: nat -> Response) returns (events: seq<Event>)
    requires Acting(w, t, Some(position)) && Classify(sh.settings, t, Some(position)) == Flip
    ensures Reaches(sh, w, events, Flipped(sh, w, t, Some(position), id, script))
  {
    hide Risk.Check, Classify, AfterSubmit, CheckedAndOrdered, Reaches, ExecuteClose, WithLeg, JudgeNewSide;
    events := CheckAndOrderEvents(sh, w, t, Some(position), id, script(id));
    var half := CheckedAndOrdered(sh, w, t, Some(position), id, script(id));
    ExitPlaced(sh, w, t, position, id, script(id));
    if t.symbol in half.tasks {
      var judged := JudgeNewSide(sh, half, t);
      NewSideTask(sh, half, t);
      OneMore(sh, w, events, half, Verify(t.symbol));
      events := events + [Verify(t.symbol)];
      if judged.Some? {
        OneMore(sh, w, events, WithTask(half, t.symbol, judged), Submit(t.symbol, id + 1, script(id + 1)));
        events := events + [Submit(t.symbol, id + 1, script(id + 1))];
      } else {
        SubmitNothing(sh, half, t.symbol, id + 1, script(id + 1));
      }
    }
  }

  lemma NewSideTask(sh: Shared, w: World, t: Target)
    ensures
      var judged := JudgeNewSide(sh, w, t);
      judged.Some? ==> judged.value == Cleared(t, None, t.notional)
  {
    hide Risk.Check;
  }

  lemma SubmitNothing(sh: Shared, w: World, symbol: string, id: nat, response: Response)
    ensures AfterSubmit(sh, End(w, symbol), symbol, id, response) == End(w, symbol)
  {}

  lemma DidFlip(sh: Shared, w: World, t: Target, position: Position, e: Env, id: nat)
    requires Acting(w, t, Some(position)) && Undisturbed(sh, w, t, e, id)
    requires Classify(sh.settings, t, Some(position)) == Flip
    ensures Did(w, t.symbol, t, FlipAction(sh.settings, e, t, Some(position), 0, 0),
                Flipped(sh, w, t, Some(position), id, e.script))
  {
    hide Risk.Check, ExecuteClose, WithLeg, CheckedAndOrdered, Classify, AfterSubmit, JudgeNewSide, OpenAfterClose;
    hide BlockedResult;
    WithLegTwice(w.positions, t.symbol, None, None);
    assert e.Portfolio(0, t.symbol, Some(position)) == w.positions;
    ExitPlaced(sh, w, t, position, id, e.script(id));
    var half := CheckedAndOrdered(sh, w, t, Some(position), id, e.script(id));
    if t.symbol in half.tasks {
      CloseSubmitsOnce(e.market, t, position, id, e.script(id));
      DidOpenAfterClose(sh, w, e, id, half, t, position,
                        ExecuteClose(false, e.market, t, position, Some(position), id, e.script(id)));
    }
  }

  lemma DidOpenAfterClose(sh: Shared, w: World, e: Env, id: nat, half: World, t: Target, position: Position,
                          closed: Effect)
    requires Undisturbed(sh, w, t, e, id)
    requires closed.outcome.Ok? && |closed.submissions| == 1
    requires half.positions == WithLeg(w.positions, t.symbol, closed.position)
    ensures
      var after := AfterSubmit(sh, WithTask(half, t.symbol, JudgeNewSide(sh, half, t)), t.symbol, id + 1,
                               e.script(id + 1));
      Did(w, t.symbol, t, OpenAfterClose(sh.settings, e, t, position, closed, 0, 0), after)
  {
    hide Risk.Check, ExecuteDelta, WithLeg, Env.Portfolio, AfterDelta, Position.AbsNotional, Undisturbed;
    if closed.position.None? {
      SecondRead(sh, w, t, e, id);
      WithLegTwice(w.positions, t.symbol, None, None);
      var judged := JudgeNewSide(sh, half, t);
      if judged.Some? {
        var now := MoveOn(half, t.symbol, judged.value);
        DeltaDone(e.market, now, t.symbol, t, None, t.notional, false, id + 1, e.script(id + 1));
        if e.market.instrument.Some? {
          var second := ExecuteDelta(false, e.market, e.market.instrument.value, t, None, None, t.notional, false,
                                     id + 1, e.script(id + 1));
          WithLegTwice(w.positions, t.symbol, None, second.position);
        }
      }
    } else {
      WithLegTwice(w.positions, t.symbol, closed.position, None);
    }
  }

  lemma SecondRead(sh: Shared, w: World, t: Target, e: Env, id: nat)
    requires Undisturbed(sh, w, t, e, id)
    ensures e.Portfolio(1, t.symbol, None) == WithLeg(w.positions, t.symbol, None)
    ensures e.market == sh.markets(t.symbol) && e.firstOrder == id && !sh.settings.dryRun
  {
    hide WithLeg;
  }

  lemma CloseSubmitsOnce(m: Market, t: Target, position: Position, id: nat, response: Response)
    ensures
      var closed := ExecuteClose(false, m, t, position, Some(position), id, response);
      closed.outcome.Ok? ==> |closed.submissions| == 1
  {
    hide Place, CloseQuantity, CloseRequest;
  }

  /**
    A task that nobody interrupts takes the steps of `ExecuteAction`: the trace of its check and its orders
    leaves the position that function gives, and goes on to a next attempt exactly if it returns receipts.
  */
  lemma UninterruptedTaskRunsItsAction(sh: Shared, w: World, t: Target, actual: Option<Position>, e: Env, id: nat)
    requires Acting(w, t, actual) && Undisturbed(sh, w, t, e, id)
    requires Classify(sh.settings, t, actual) != Noop
    ensures
      exists events, after ::
        Reaches(sh, w, events, after) && Did(w, t.symbol, t, ExecuteAction(sh.settings, e, t, actual, 0, 0), after)
  {
    hide Did, Reaches, DeltaAction, CloseAction, FlipAction, CheckedAndOrdered, Flipped, Tolerance;
    match Classify(sh.settings, t, actual) {
      case Flip =>
        var events := FlipEvents(sh, w, t, actual.value, id, e.script);
        DidFlip(sh, w, t, actual.value, e, id);
      case Close =>
        var events := CheckAndOrderEvents(sh, w, t, actual, id, e.script(id));
        DidClose(sh, w, t, actual.value, e, id);
      case _ =>
        var events := CheckAndOrderEvents(sh, w, t, actual, id, e.script(id));
        DidDelta(sh, w, t, actual, e, id);
    }
  }
}
