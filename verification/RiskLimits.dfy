/** The limits on one order and on one symbol, over whole runs (perpmirror/risk/manager.py). */
module RiskLimits {
  import opened Wrappers
  import opened Models
  import opened Exchange
  import opened Executor
  import opened Reconciler
  import opened Motion
  import opened RunSafety
  import opened RiskOff
  import Risk

  /** No order that adds exposure is worth more than the limit per order. */
  ghost predicate WithinOrderLimit(c: Settings, m: Market, submissions: seq<Submission>)
    requires m.Ready()
  {
    forall s :: s in submissions && !s.request.reduceOnly ==> m.Worth(s.request.quantity) <= c.risk.maxOrderNotional
  }

  lemma IncreaseWithinLimit(c: Settings, m: Market, t: Target, actual: Option<Position>, position: Option<Position>,
                            notional: real, id: nat, response: Response)
    requires m.Ready() && 0.0 <= notional <= c.risk.maxOrderNotional
    ensures
      var effect := ExecuteDelta(c.dryRun, m, m.instrument.value, t, actual, position, notional, false, id, response);
      WithinOrderLimit(c, m, effect.submissions)
  {
    DeltaQuantityFacts(m, actual, notional, false);
    hide Place, DeltaQuantity, Market.Worth;
  }

  lemma ReductionsWithinLimit(c: Settings, m: Market, t: Target, position: Option<Position>, notional: real, id: nat,
                              response: Response)
    requires m.Ready()
    ensures
      var effect := ExecuteDelta(c.dryRun, m, m.instrument.value, t, position, position, notional, true, id, response);
      WithinOrderLimit(c, m, effect.submissions)
    ensures position.Some? ==>
      WithinOrderLimit(c, m, ExecuteClose(c.dryRun, m, t, position.value, position, id, response).submissions)
  {
    hide Place, DeltaQuantity, CloseQuantity, Market.Worth;
  }

  lemma DeltaWithinLimit(c: Settings, e: Env, t: Target, position: Option<Position>, attempt: nat, n: nat)
    requires e.market.Ready() && Classify(c, t, position) in {Open, Add, Reduce}
    ensures WithinOrderLimit(c, e.market,
                             DeltaAction(c, e, t, position, Classify(c, t, position), attempt, n).submissions)
  {
    var notional, k := OrderNotional(t, position), e.firstOrder + n;
    assert 0.0 <= notional;
    hide ExecuteDelta, Risk.TotalNotional, Market.Worth, Classify, OrderNotional, BlockedResult;
    ReductionsWithinLimit(c, e.market, t, position, notional, k, e.script(k));
    if notional <= c.risk.maxOrderNotional {
      IncreaseWithinLimit(c, e.market, t, position, position, notional, k, e.script(k));
    }
  }

  lemma NewSideWithinLimit(c: Settings, e: Env, t: Target, position: Position, closed: Effect, attempt: nat, n: nat)
    requires e.market.Ready() && t.notional > 0.0 && closed.outcome.Ok? && !c.dryRun
    requires WithinOrderLimit(c, e.market, closed.submissions)
    ensures WithinOrderLimit(c, e.market, OpenAfterClose(c, e, t, position, closed, attempt, n).submissions)
  {
    hide ExecuteDelta, Risk.TotalNotional, Market.Worth, Position.AbsNotional;
    if t.notional <= c.risk.maxOrderNotional {
      var second := e.firstOrder + n + |closed.submissions|;
      IncreaseWithinLimit(c, e.market, t, None, None, t.notional, second, e.script(second));
    }
  }

  lemma FlipWithinLimit(c: Settings, e: Env, t: Target, position: Position, attempt: nat, n: nat)
    requires e.market.Ready() && t.notional > 0.0
    ensures WithinOrderLimit(c, e.market, FlipAction(c, e, t, Some(position), attempt, n).submissions)
  {
    hide ExecuteClose, OpenAfterClose, Risk.Check, BlockedResult, Market.Worth, Position.AbsNotional;
    var k := e.firstOrder + n;
    ReductionsWithinLimit(c, e.market, t, Some(position), 0.0, k, e.script(k));
    var closed := ExecuteClose(c.dryRun, e.market, t, position, Some(position), k, e.script(k));
    if closed.outcome.Ok? && !c.dryRun {
      NewSideWithinLimit(c, e, t, position, closed, attempt, n);
    }
  }

  lemma ActionWithinLimit(c: Settings, e: Env, t: Target, position: Option<Position>, attempt: nat, n: nat)
    requires e.market.Ready() && Classify(c, t, position) != Noop
    ensures WithinOrderLimit(c, e.market, ExecuteAction(c, e, t, position, attempt, n).submissions)
  {
    hide ExecuteClose, Risk.Check, BlockedResult, Market.Worth, DeltaAction, FlipAction, Tolerance;
    hide Position.AbsNotional;
    match Classify(c, t, position)
    case Flip =>
      FlipWithinLimit(c, e, t, position.value, attempt, n);
    case Close =>
      var k := e.firstOrder + n;
      ReductionsWithinLimit(c, e.market, t, position, 0.0, k, e.script(k));
    case _ =>
      DeltaWithinLimit(c, e, t, position, attempt, n);
  }

  lemma AttemptWithinLimit(c: Settings, e: Env, t: Target, initial: Option<Position>, s: State, attempt: nat)
    requires e.market.Ready() && WithinOrderLimit(c, e.market, s.submissions)
    ensures
      var submissions := match Attempt(c, e, t, initial, s, attempt)
                         case Done(run) => run.submissions
                         case Continue(next) => next.submissions;
      WithinOrderLimit(c, e.market, submissions)
  {
    hide Suppresses, ClassifyExecuted, Error.IsPerpMirrorError, StartCooldown, WithinOrderLimit, Classify;
    hide ExecuteAction, AbsNotionalOf;
    if Classify(c, t, s.position) != Noop {
      var n := |s.submissions|;
      ActionWithinLimit(c, e, t, s.position, attempt, n);
      LimitAppend(c, e.market, s.submissions, ExecuteAction(c, e, t, s.position, attempt, n).submissions);
    }
  }

  lemma LimitAppend(c: Settings, m: Market, first: seq<Submission>, second: seq<Submission>)
    requires m.Ready() && WithinOrderLimit(c, m, first) && WithinOrderLimit(c, m, second)
    ensures WithinOrderLimit(c, m, first + second)
  {
    hide Market.Worth;
  }

  lemma {:induction false} LoopWithinLimit(c: Settings, e: Env, t: Target, initial: Option<Position>, s: State,
                                           attempt: nat)
    requires e.market.Ready() && WithinOrderLimit(c, e.market, s.submissions)
    ensures WithinOrderLimit(c, e.market, Loop(c, e, t, initial, s, attempt).submissions)
    decreases c.maxRetries + 1 - attempt
  {
    if attempt <= c.maxRetries {
      AttemptWithinLimit(c, e, t, initial, s, attempt);
      hide Attempt, WithinOrderLimit;
      match Attempt(c, e, t, initial, s, attempt)
      case Done(_) =>
      case Continue(next) => LoopWithinLimit(c, e, t, initial, next, attempt + 1);
    }
  }

  /** A journey can be cut after any of its orders. */
  lemma {:induction false} JourneyUpTo(m: Market, t: Target, from: Option<Position>, submissions: seq<Submission>,
                                       to: Option<Position>, k: nat)
    requires m.Ready() && Journey(m, t, from, submissions, to) && k < |submissions|
    ensures Journey(m, t, from, submissions[..k + 1], submissions[k].after)
    decreases |submissions|
  {
    JourneyPrefix(m, t, from, submissions, to);
    hide Journey, WellBehaved, Approaches;
    var last := |submissions| - 1;
    if k < last {
      JourneyUpTo(m, t, from, submissions[..last], submissions[last].before, k);
      assert submissions[..last][..k + 1] == submissions[..k + 1];
    } else {
      assert submissions[..k + 1] == submissions;
    }
  }

  /** At the end of a journey the notional is no more than it was, or than its target may ask for. */
  lemma JourneyKeepsSymbolLimit(c: Settings, m: Market, t: Target, from: Option<Position>, submissions: seq<Submission>,
                                to: Option<Position>)
    requires m.Ready() && m.Booked(from) && Journey(m, t, from, submissions, to)
    requires IncreasesBlocked(c, t) ==> OnlyReduces(submissions)
    ensures AbsNotionalOf(to) <= Max(AbsNotionalOf(from), c.risk.maxSingleSymbolNotional)
  {
    assert m.Booked(to);
    JourneyStopsAtGoal(m, t, from, submissions, to);
    SideMatchesValue(m, from);
    SideMatchesValue(m, to);
    if IncreasesBlocked(c, t) {
      ReducingJourneyShrinks(m, t, from, submissions, to);
      SmallerQuantitySmallerNotional(m, from, to);
    }
    hide Journey, Market.Value, Market.Booked, Signed;
  }

  /**
    Whatever the exchange and the other symbols do in a run, no order of it adds more than the limit per
    order, and after none of its orders is the position above the limit per symbol unless it was so before.
  */
  lemma RunKeepsLimits(c: Settings, e: Env, t: Target, position: Option<Position>, cooldown: Option<FailureCooldown>)
    requires e.market.Ready() && e.market.Booked(position)
    ensures
      var run := Reconcile(c, e, t, position, cooldown);
      var limit := Max(AbsNotionalOf(position), c.risk.maxSingleSymbolNotional);
      && WithinOrderLimit(c, e.market, run.submissions)
      && (forall s :: s in run.submissions ==> AbsNotionalOf(s.after) <= limit)
      && AbsNotionalOf(run.position) <= limit
  {
    LoopWithinLimit(c, e, t, position, State(position, [], [], cooldown), 0);
    RunIsSafe(c, e, t, position, cooldown);
    hide Loop, Journey, Market.Booked, WithinOrderLimit, AbsNotionalOf, Shape, FlipShape, Numbered, LandedButLast;
    var run := Reconcile(c, e, t, position, cooldown);
    if IncreasesBlocked(c, t) {
      RunOnlyShrinks(c, e, t, position, cooldown);
    }
    JourneyKeepsSymbolLimit(c, e.market, t, position, run.submissions, run.position);
    forall k | 0 <= k < |run.submissions|
      ensures AbsNotionalOf(run.submissions[k].after) <= Max(AbsNotionalOf(position), c.risk.maxSingleSymbolNotional)
    {
      JourneyUpTo(e.market, t, position, run.submissions, run.position, k);
      JourneyKeepsSymbolLimit(c, e.market, t, position, run.submissions[..k + 1], run.submissions[k].after);
    }
  }
}
