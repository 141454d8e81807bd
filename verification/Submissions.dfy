/**
  What orders a run sends, and what a dry run foretells of them (perpmirror/execution/executor.py,
  perpmirror/copy/reconciler.py).
*/
module Submissions {
  import opened Wrappers
  import opened Models
  import opened Exchange
  import opened Executor
  import opened Reconciler
  import opened RunResults
  import Risk

  /** The order is for the target's symbol; it reduces the position it finds or adds to the target's side. */
  predicate Addressed(t: Target, s: Submission) {
    && s.request.symbol == t.symbol
    && if s.request.reduceOnly then
         && s.before.Some? && s.request.positionSide == s.before.value.side
         && s.request.side == (if s.before.value.side == Long then Sell else Buy)
         && s.request.purpose in {Closing, Reducing}
       else
         && s.request.positionSide == t.side && s.request.side == (if t.side == Long then Buy else Sell)
         && s.request.purpose == Increasing
  }

  ghost predicate AllAddressed(t: Target, submissions: seq<Submission>) {
    forall k :: 0 <= k < |submissions| ==> Addressed(t, submissions[k])
  }

  lemma ActionIsAddressed(c: Settings, e: Env, t: Target, position: Option<Position>, attempt: nat, n: nat)
    requires Classify(c, t, position) != Noop
    ensures AllAddressed(t, ExecuteAction(c, e, t, position, attempt, n).submissions)
  {
    hide Place, DeltaQuantity, CloseQuantity, OrderNotional, Risk.Check, Position.AbsNotional, Tolerance;
  }

  lemma AddressedAppend(t: Target, first: seq<Submission>, second: seq<Submission>)
    requires AllAddressed(t, first) && AllAddressed(t, second)
    ensures AllAddressed(t, first + second)
  {
    hide Addressed;
  }

  lemma AttemptIsAddressed(c: Settings, e: Env, t: Target, initial: Option<Position>, s: State, attempt: nat)
    requires AllAddressed(t, s.submissions)
    ensures
      match Attempt(c, e, t, initial, s, attempt)
      case Done(run) => AllAddressed(t, run.submissions)
      case Continue(next) => AllAddressed(t, next.submissions)
  {
    hide Suppresses, ClassifyExecuted, Error.IsPerpMirrorError, StartCooldown, AllAddressed;
    if Classify(c, t, s.position) != Noop {
      ActionIsAddressed(c, e, t, s.position, attempt, |s.submissions|);
      AddressedAppend(t, s.submissions, ExecuteAction(c, e, t, s.position, attempt, |s.submissions|).submissions);
    }
    hide ExecuteAction, Classify, AbsNotionalOf;
  }

  lemma {:induction false} LoopIsAddressed(c: Settings, e: Env, t: Target, initial: Option<Position>, s: State,
                                           attempt: nat)
    requires AllAddressed(t, s.submissions)
    ensures AllAddressed(t, Loop(c, e, t, initial, s, attempt).submissions)
    decreases c.maxRetries + 1 - attempt
  {
    hide Attempt, AllAddressed, Classify, ClassifyExecuted, AbsNotionalOf;
    if attempt <= c.maxRetries {
      AttemptIsAddressed(c, e, t, initial, s, attempt);
      match Attempt(c, e, t, initial, s, attempt)
      case Done(_) =>
      case Continue(next) => LoopIsAddressed(c, e, t, initial, next, attempt + 1);
    }
  }

  /** Whatever a run reads, each of its orders is addressed like that. */
  lemma OrdersAreAddressed(c: Settings, e: Env, t: Target, position: Option<Position>,
                           cooldown: Option<FailureCooldown>)
    ensures
      forall s :: s in Reconcile(c, e, t, position, cooldown).submissions ==> Addressed(t, s)
  {
    hide Loop, Addressed;
    LoopIsAddressed(c, e, t, position, State(position, [], [], cooldown), 0);
  }

  // ----- Dry runs -----

  /** The setter or the exchange has been asked. */
  ghost predicate Reached(effect: ActionEffect) {
    effect.submissions != [] || effect.outcome == Raises(SetterFailure)
  }

  lemma DeltaForetold(m: Market, i: Instrument, t: Target, position: Option<Position>, notional: real,
                      reduceOnly: bool, id: nat, response: Response)
    ensures
      var dry := ExecuteDelta(true, m, i, t, position, position, notional, reduceOnly, id, response);
      var live := ExecuteDelta(false, m, i, t, position, position, notional, reduceOnly, id, response);
      if dry.outcome.Ok? then
        dry == Effect(position, [], Ok(OrderResult(id, DryRun, 0.0))) && Reached(Receipt(live))
      else live == dry && !Reached(Receipt(live))
  {
    hide Place, Instrument.RoundDown, Product;
  }

  lemma CloseForetold(m: Market, t: Target, position: Position, id: nat, response: Response)
    ensures
      var p := Some(position);
      var dry := ExecuteClose(true, m, t, position, p, id, response);
      var live := ExecuteClose(false, m, t, position, p, id, response);
      if dry.outcome.Ok? then
        dry == Effect(p, [], Ok(OrderResult(id, DryRun, 0.0))) && live.submissions != []
      else live == dry && !Reached(Receipt(live))
  {
    hide Place, Instrument.RoundDown, Product;
  }

  lemma DryClassifies(c: Settings, t: Target, position: Option<Position>)
    ensures Classify(c.(dryRun := true), t, position) == Classify(c, t, position)
  {}

  lemma ActionForetold(c: Settings, e: Env, t: Target, position: Option<Position>)
    requires Classify(c, t, position) != Noop && !c.dryRun
    ensures Classify(c.(dryRun := true), t, position) == Classify(c, t, position)
    ensures
      var dry := ExecuteAction(c.(dryRun := true), e, t, position, 0, 0);
      var live := ExecuteAction(c, e, t, position, 0, 0);
      if dry.outcome.Orders? then
        && dry == ActionEffect(position, [], Orders([OrderResult(e.firstOrder, DryRun, 0.0)])) && Reached(live)
      else live == dry && !Reached(live)
  {
    DryClassifies(c, t, position);
    var k := e.firstOrder;
    hide ExecuteDelta, ExecuteClose, Risk.Check, BlockedResult, Tolerance, Position.AbsNotional, OrderNotional;
    if Classify(c, t, position) in {Flip, Close} {
      CloseForetold(e.market, t, position.value, k, e.script(k));
      var closed := ExecuteClose(false, e.market, t, position.value, position, k, e.script(k));
      if closed.outcome.Ok? {
        OpeningKeepsOrders(c, e, t, position.value, closed);
      }
    } else if e.market.instrument.Some? {
      DeltaForetold(e.market, e.market.instrument.value, t, position, OrderNotional(t, position),
                    Classify(c, t, position) == Reduce, k, e.script(k));
    }
    hide OpenAfterClose;
  }

  lemma OpeningKeepsOrders(c: Settings, e: Env, t: Target, position: Position, closed: Effect)
    requires closed.outcome.Ok?
    ensures closed.submissions <= OpenAfterClose(c, e, t, position, closed, 0, 0).submissions
  {
    hide ExecuteDelta, Risk.Check;
  }

  /** What the first attempt comes to, dry and live. */
  lemma AttemptForetold(c: Settings, e: Env, t: Target, position: Option<Position>, s: State)
    requires !c.dryRun && s == State(position, [], [], s.cooldown)
    ensures
      var dry := Attempt(c.(dryRun := true), e, t, position, s, 0);
      var live := Attempt(c, e, t, position, s, 0);
      var reported := dry.run.returned;
      && dry.Done? && dry.run.submissions == []
      && if reported.Ok? && reported.value.success && reported.value.action != Noop then
           && reported.value.action == Classify(c, t, position)
           && reported.value.orderResults == [OrderResult(e.firstOrder, DryRun, 0.0)]
           && match live
              case Continue(next) => next.submissions != []
              case Done(run) =>
                run.submissions != []
                || (run.returned.Ok? && run.returned.value.message == Failed(SetterFailure))
         else live == dry
  {
    DryClassifies(c, t, position);
    DryAttempt(c.(dryRun := true), e, t, position, s, 0);
    assert forall entry, action, now ::
      Suppresses(c.(dryRun := true), entry, t, action, now) == Suppresses(c, entry, t, action, now);
    var action := Classify(c, t, position);
    hide Suppresses, ClassifyExecuted, AbsNotionalOf;
    if action != Noop && !Suppresses(c, s.cooldown, t, action, e.clock(0).checked) {
      ActionForetold(c, e, t, position);
      StoppedIsNoSuccess(c, e, t, position);
      assert forall outcome, message, now ::
        StartCooldown(c.(dryRun := true), t, action, outcome, message, now)
          == StartCooldown(c, t, action, outcome, message, now);
    }
    hide ExecuteAction, Classify, StartCooldown;
  }

  lemma StoppedIsNoSuccess(c: Settings, e: Env, t: Target, position: Option<Position>)
    requires Classify(c, t, position) != Noop
    ensures
      var effect := ExecuteAction(c, e, t, position, 0, 0);
      effect.outcome.Stopped? ==> !effect.outcome.result.success
  {
    ActionReports(c, e, t, position, 0, 0);
    hide ExecuteAction, Classify;
  }

  /**
    A dry run foretells the live run. If it reports success for an action, then the live run asks the exchange for
    just that action; in every other case the live run is the same, to the last field, and sends no order.
  */
  lemma DryRunForetells(c: Settings, e: Env, t: Target, position: Option<Position>, cooldown: Option<FailureCooldown>)
    requires !c.dryRun && c.maxRetries >= 0
    ensures
      var dry := Reconcile(c.(dryRun := true), e, t, position, cooldown);
      var live := Reconcile(c, e, t, position, cooldown);
      if dry.returned.Ok? && dry.returned.value.success && dry.returned.value.action != Noop then
        && dry.returned.value.action == Classify(c, t, position)
        && dry.returned.value.orderResults == [OrderResult(e.firstOrder, DryRun, 0.0)]
        && (live.submissions != []
            || (live.returned.Ok? && live.returned.value.message == Failed(SetterFailure)))
      else live == dry && live.submissions == []
  {
    var s, d := State(position, [], [], cooldown), c.(dryRun := true);
    AttemptForetold(c, e, t, position, s);
    hide Classify, Attempt;
    LoopOnce(d, e, t, position, s, 0);
    LoopGoesOn(c, e, t, position, s, 0);
    match Attempt(c, e, t, position, s, 0)
    case Done(_) => LoopOnce(c, e, t, position, s, 0);
    case Continue(next) => LoopKeepsOrders(c, e, t, position, next, 1);
    hide Loop;
  }

  lemma {:induction false} LoopKeepsOrders(c: Settings, e: Env, t: Target, initial: Option<Position>, s: State,
                                           attempt: nat)
    ensures s.submissions <= Loop(c, e, t, initial, s, attempt).submissions
    decreases c.maxRetries + 1 - attempt
  {
    if attempt <= c.maxRetries {
      AttemptKeepsOrders(c, e, t, initial, s, attempt);
      hide Attempt, Classify, ClassifyExecuted, AbsNotionalOf;
      match Attempt(c, e, t, initial, s, attempt)
      case Done(_) =>
      case Continue(next) => LoopKeepsOrders(c, e, t, initial, next, attempt + 1);
    }
  }

  lemma AttemptKeepsOrders(c: Settings, e: Env, t: Target, initial: Option<Position>, s: State, attempt: nat)
    ensures
      match Attempt(c, e, t, initial, s, attempt)
      case Done(run) => s.submissions <= run.submissions
      case Continue(next) => s.submissions <= next.submissions
  {
    hide ExecuteAction, Classify, Suppresses, AbsNotionalOf, ClassifyExecuted, StartCooldown, Error.IsPerpMirrorError;
  }
}
