/**
  How a run ends, what entry it leaves, and what that entry does to the next call (perpmirror/copy/reconciler.py).
*/
module Endings {
  import opened Wrappers
  import opened Models
  import opened Exchange
  import opened Executor
  import opened Reconciler
  import opened RunResults
  import Risk

  /** The state in which a run begins its last attempt (or finds none left), and the number of that attempt. */
  datatype Ending = Ending(state: State, attempt: nat)

  ghost function EndsIn(c: Settings, e: Env, t: Target, initial: Option<Position>, s: State, attempt: nat): Ending
    decreases c.maxRetries + 1 - attempt
  {
    if attempt > c.maxRetries then Ending(s, attempt)
    else
      match Attempt(c, e, t, initial, s, attempt)
      case Done(_) => Ending(s, attempt)
      case Continue(next) => EndsIn(c, e, t, initial, next, attempt + 1)
  }

  ghost function EndOf(c: Settings, e: Env, t: Target, position: Option<Position>, cooldown: Option<FailureCooldown>)
    : Ending
  {
    EndsIn(c, e, t, position, State(position, [], [], cooldown), 0)
  }

  /** The run is what its last attempt, or the lack of one, makes of that state. */
  ghost predicate EndsWith(c: Settings, e: Env, t: Target, initial: Option<Position>, first: State, end: Ending,
                           run: Run)
  {
    && (if end.attempt == 0 then end.state == first else end.state.cooldown == None)
    && if end.attempt > c.maxRetries then run == Exhausted(c, t, initial, end.state)
       else Attempt(c, e, t, initial, end.state, end.attempt) == Done(run)
  }

  lemma {:induction false} LoopEnds(c: Settings, e: Env, t: Target, initial: Option<Position>, first: State, s: State,
                                    attempt: nat)
    requires attempt > 0 ==> s.cooldown == None
    requires attempt == 0 ==> s == first
    ensures EndsWith(c, e, t, initial, first, EndsIn(c, e, t, initial, s, attempt),
                     Loop(c, e, t, initial, s, attempt))
    decreases c.maxRetries + 1 - attempt
  {
    hide Attempt, Exhausted;
    if attempt <= c.maxRetries {
      NextHasNoEntry(c, e, t, initial, s, attempt);
      match Attempt(c, e, t, initial, s, attempt)
      case Done(_) =>
      case Continue(next) => LoopEnds(c, e, t, initial, first, next, attempt + 1);
    }
  }

  lemma NextHasNoEntry(c: Settings, e: Env, t: Target, initial: Option<Position>, s: State, attempt: nat)
    ensures
      var progress := Attempt(c, e, t, initial, s, attempt);
      progress.Continue? ==> progress.state.cooldown == None
  {
    hide ExecuteAction, Classify, Suppresses;
  }

  lemma EndOfRun(c: Settings, e: Env, t: Target, position: Option<Position>, cooldown: Option<FailureCooldown>)
    ensures EndsWith(c, e, t, position, State(position, [], [], cooldown), EndOf(c, e, t, position, cooldown),
                     Reconcile(c, e, t, position, cooldown))
  {
    hide EndsWith, Loop, EndsIn;
    LoopEnds(c, e, t, position, State(position, [], [], cooldown), State(position, [], [], cooldown), 0);
  }

  // ----- What a run reports -----

  lemma ActionStops(c: Settings, e: Env, t: Target, position: Option<Position>, attempt: nat, n: nat)
    requires Classify(c, t, position) != Noop
    ensures
      var effect := ExecuteAction(c, e, t, position, attempt, n);
      effect.outcome.Stopped? ==>
        var result := effect.outcome.result;
        && result.followerId == t.followerId && result.symbol == t.symbol && result.targetNotional == t.notional
        && result.previousNotional == AbsNotionalOf(position) && !result.suppressed && !result.success
        && (result.action == RiskBlocked || result.message == FlipStopped)
        && (Classify(c, t, position) in {Open, Add} ==> result.action == RiskBlocked)
        && !result.message.Failed?
  {
    hide Risk.Check, Submit, DeltaQuantity, CloseQuantity, DeltaRequest, CloseRequest, OrderNotional;
  }

  /** The result names its target, and how large the position was to begin with. */
  ghost predicate Identifies(t: Target, initial: Option<Position>, last: Option<Position>, result: ReconcileResult) {
    && result.followerId == t.followerId && result.symbol == t.symbol && result.targetNotional == t.notional
    && result.previousNotional
         == AbsNotionalOf(if result.action == RiskBlocked || result.message == FlipStopped then last else initial)
  }

  lemma ActionIdentifies(c: Settings, e: Env, t: Target, initial: Option<Position>, s: State, attempt: nat)
    requires Classify(c, t, s.position) != Noop
    ensures
      var effect := ExecuteAction(c, e, t, s.position, attempt, |s.submissions|);
      var progress := AfterAction(c, e, t, initial, s, effect, attempt);
      progress.Done? && progress.run.returned.Ok? ==> Identifies(t, initial, s.position, progress.run.returned.value)
  {
    hide Error.IsPerpMirrorError, StartCooldown;
    ActionStops(c, e, t, s.position, attempt, |s.submissions|);
    ClassifyIsNoFailure(c, t, s.position);
    hide ExecuteAction, Classify, AbsNotionalOf;
  }

  lemma AttemptIdentifies(c: Settings, e: Env, t: Target, initial: Option<Position>, s: State, attempt: nat)
    requires if attempt == 0 then s.position == initial else s.cooldown == None
    ensures
      var progress := Attempt(c, e, t, initial, s, attempt);
      progress.Done? && progress.run.returned.Ok? ==> Identifies(t, initial, s.position, progress.run.returned.value)
  {
    if Classify(c, t, s.position) != Noop {
      ActionIdentifies(c, e, t, initial, s, attempt);
    }
    ExecutedIsNoFailure(initial, t);
    hide ExecuteAction, Classify, AbsNotionalOf, AfterAction, ClassifyExecuted, SameFailureTarget;
  }

  lemma ExecutedIsNoFailure(initial: Option<Position>, t: Target)
    ensures ClassifyExecuted(initial, t) !in {RiskBlocked, OrderFailed}
  {}

  lemma ClassifyIsNoFailure(c: Settings, t: Target, position: Option<Position>)
    ensures Classify(c, t, position) !in {RiskBlocked, OrderFailed}
  {
    hide Tolerance;
  }

  /**
    Every returned result is about its own target and gives the notional the run began with. The exceptions are a risk
    block and a stopped flip, which give the notional their own attempt began with: after earlier orders of the run
    that is another one.
  */
  lemma ReportsIdentify(c: Settings, e: Env, t: Target, position: Option<Position>, cooldown: Option<FailureCooldown>)
    ensures
      var run := Reconcile(c, e, t, position, cooldown);
      var last := EndOf(c, e, t, position, cooldown).state.position;
      run.returned.Ok? ==> Identifies(t, position, last, run.returned.value)
  {
    EndOfRun(c, e, t, position, cooldown);
    ExecutedIsNoFailure(position, t);
    hide Reconcile, EndOf, ClassifyExecuted, AbsNotionalOf, Attempt, Classify;
    var end := EndOf(c, e, t, position, cooldown);
    if end.attempt <= c.maxRetries {
      AttemptIdentifies(c, e, t, position, end.state, end.attempt);
    }
  }

  /** The greater of two limits, as two comparisons. */
  lemma WithinTolerance(c: Settings, notional: real, distance: real)
    ensures distance <= Tolerance(c, notional)
      <==> distance <= c.driftMin || distance <= notional * c.driftPercent / 100.0
  {}

  /** What a target asks for: nothing, or its side with a notional that is off by no more than the drift allows. */
  predicate AtTarget(c: Settings, t: Target, position: Option<Position>) {
    if t.side == Flat || t.notional <= 0.0 then position.None?
    else
      && position.Some? && position.value.side == t.side
      && var off := Abs(t.notional - Abs(position.value.notional));
      off <= c.driftMin || off <= t.notional * c.driftPercent / 100.0
  }

  lemma NoopExactly(c: Settings, t: Target, position: Option<Position>)
    ensures Classify(c, t, position) == Noop <==> AtTarget(c, t, position)
  {
    if position.Some? {
      WithinTolerance(c, t.notional, Abs(t.notional - position.value.AbsNotional()));
    }
    hide Tolerance;
  }

  /** A live success leaves the follower at its target; a run on a position that is at its target sends no order. */
  lemma SuccessIsAtTarget(c: Settings, e: Env, t: Target, position: Option<Position>,
                          cooldown: Option<FailureCooldown>)
    requires c.maxRetries >= 0 && GoodEntry(cooldown)
    ensures
      var run := Reconcile(c, e, t, position, cooldown);
      && (run.returned.Ok? && run.returned.value.success && !c.dryRun ==> AtTarget(c, t, run.position))
      && (AtTarget(c, t, position) ==>
            && run.submissions == [] && run.position == position
            && run.returned.Ok? && run.returned.value.success && run.returned.value.action == Noop)
  {
    NoopExactly(c, t, position);
    NoopExactly(c, t, Reconcile(c, e, t, position, cooldown).position);
    ReportIsTruthful(c, e, t, position, cooldown);
    hide AtTarget, Classify, Loop, Tolerance;
    if AtTarget(c, t, position) {
      AtTargetLoop(c, e, t, position, cooldown);
    }
  }

  lemma AtTargetLoop(c: Settings, e: Env, t: Target, position: Option<Position>, cooldown: Option<FailureCooldown>)
    requires c.maxRetries >= 0 && Classify(c, t, position) == Noop
    ensures
      var run := Reconcile(c, e, t, position, cooldown);
      && run.submissions == [] && run.position == position
      && run.returned.Ok? && run.returned.value.success && run.returned.value.action == Noop
  {
    hide Classify, ExecuteAction, AfterAction, ClassifyExecuted, AbsNotionalOf;
    LoopOnce(c, e, t, position, State(position, [], [], cooldown), 0);
  }

  // ----- Blocks and errors -----

  /** The first rule in the program's order that an increase breaks, on what the run reads for it. */
  ghost predicate FirstBroken(c: Settings, t: Target, position: Option<Position>, portfolio: map<string, Position>,
                              notional: real, rule: Risk.Rule)
  {
    && Risk.Violates(c.risk, t, position, Risk.TotalNotional(portfolio), |portfolio|, notional, rule)
    && forall other: Risk.Rule :: Risk.Rank(other) < Risk.Rank(rule) ==>
         !Risk.Violates(c.risk, t, position, Risk.TotalNotional(portfolio), |portfolio|, notional, other)
  }

  lemma BlockedByFirst(c: Settings, t: Target, position: Option<Position>, portfolio: map<string, Position>,
                       action: Action, notional: real)
    requires action in {Open, Add}
    ensures
      match Risk.Check(c.risk, t, position, portfolio, action, notional)
      case Allowed => forall rule :: !FirstBroken(c, t, position, portfolio, notional, rule)
      case Blocked(rule) => FirstBroken(c, t, position, portfolio, notional, rule)
  {
    var total, open := Risk.TotalNotional(portfolio), |portfolio|;
    forall rule: Risk.Rule
      ensures Risk.Violates(c.risk, t, position, total, open, notional, rule) ==>
        var decision := Risk.Decide(c.risk, t, position, total, open, action, notional);
        decision.Blocked? && Risk.Rank(decision.rule) <= Risk.Rank(rule)
    {
      Risk.DecisionIsFirstViolation(c.risk, t, position, total, open, action, notional, rule);
    }
    var decision := Risk.Decide(c.risk, t, position, total, open, action, notional);
    if decision.Blocked? {
      Risk.DecisionIsFirstViolation(c.risk, t, position, total, open, action, notional, decision.rule);
    }
    hide Risk.Violates, Risk.Decide, Risk.TotalNotional, Risk.Rank;
  }

  lemma DeltaStopsExactly(c: Settings, e: Env, t: Target, position: Option<Position>, action: Action, attempt: nat,
                          n: nat)
    ensures
      var effect := DeltaAction(c, e, t, position, action, attempt, n);
      match Risk.Check(c.risk, t, position, e.Portfolio(2 * attempt, t.symbol, position), action,
                       OrderNotional(t, position))
      case Allowed => !effect.outcome.Stopped?
      case Blocked(rule) =>
        && effect.outcome == Stopped(BlockedResult(t, position, rule))
        && effect.submissions == [] && effect.position == position
  {
    hide Risk.Check, ExecuteDelta, WithLeg, OrderNotional, BlockedResult;
  }

  /** The increase is stopped for this rule. */
  ghost predicate StoppedFor(effect: ActionEffect, position: Option<Position>, rule: Risk.Rule) {
    && effect.submissions == [] && effect.position == position && effect.outcome.Stopped?
    && effect.outcome.result.action == RiskBlocked && effect.outcome.result.message == RiskReason(rule)
  }

  /** An increase that breaks a rule is stopped for the first one it breaks, without an order; no other is stopped. */
  lemma BlockNamesItsRule(c: Settings, e: Env, t: Target, position: Option<Position>, attempt: nat, n: nat,
                          rule: Risk.Rule)
    requires Classify(c, t, position) in {Open, Add}
    ensures
      var effect := ExecuteAction(c, e, t, position, attempt, n);
      var wanted := if position.None? then t.notional else Abs(t.notional - Abs(position.value.notional));
      && (StoppedFor(effect, position, rule) <==>
            FirstBroken(c, t, position, e.Portfolio(2 * attempt, t.symbol, position), wanted, rule))
      && (effect.outcome.Stopped? ==>
            && effect.outcome.result.message.RiskReason?
            && StoppedFor(effect, position, effect.outcome.result.message.rule))
  {
    var portfolio, action := e.Portfolio(2 * attempt, t.symbol, position), Classify(c, t, position);
    BlockedByFirst(c, t, position, portfolio, action, OrderNotional(t, position));
    DeltaStopsExactly(c, e, t, position, action, attempt, n);
    assert ExecuteAction(c, e, t, position, attempt, n) == DeltaAction(c, e, t, position, action, attempt, n);
    OnlyOneIsFirst(c, t, position, portfolio, OrderNotional(t, position));
    hide Risk.Check, FirstBroken, DeltaAction, ExecuteAction, WithLeg, Classify;
  }

  lemma OnlyOneIsFirst(c: Settings, t: Target, position: Option<Position>, portfolio: map<string, Position>,
                       notional: real)
    ensures forall one, other ::
      FirstBroken(c, t, position, portfolio, notional, one) && FirstBroken(c, t, position, portfolio, notional, other)
      ==> one == other
  {
    hide Risk.Violates, Risk.TotalNotional;
  }

  lemma ExecutorErrors(m: Market, i: Instrument, t: Target, actual: Option<Position>, position: Option<Position>,
                       notional: real, reduceOnly: bool, dryRun: bool, id: nat, response: Response)
    requires m.Ready() && i == m.instrument.value
    ensures
      var effect := ExecuteDelta(dryRun, m, i, t, actual, position, notional, reduceOnly, id, response);
      effect.outcome.Err? ==> effect.outcome.error !in {ValueError, KeyError}
    ensures actual.Some? ==>
      var effect := ExecuteClose(dryRun, m, t, actual.value, position, id, response);
      effect.outcome.Err? ==> effect.outcome.error !in {ValueError, KeyError}
  {
    hide FillOf, Instrument.RoundDown, Product, Book, SignedFill, Instrument.NotionalForQuantity;
  }

  lemma ActionErrors(c: Settings, e: Env, t: Target, position: Option<Position>, attempt: nat, n: nat)
    requires Classify(c, t, position) != Noop && e.market.Ready()
    ensures
      var effect := ExecuteAction(c, e, t, position, attempt, n);
      effect.outcome.Raises? ==> effect.outcome.error !in {ValueError, KeyError}
  {
    hide ExecuteDelta, ExecuteClose, Risk.Check, BlockedResult, Tolerance, Position.AbsNotional, OrderNotional;
    var i, k, reduceOnly := e.market.instrument.value, e.firstOrder + n, Classify(c, t, position) == Reduce;
    ExecutorErrors(e.market, i, t, position, position, OrderNotional(t, position), reduceOnly, c.dryRun, k,
                   e.script(k));
    if Classify(c, t, position) == Flip {
      var closed := ExecuteClose(c.dryRun, e.market, t, position.value, position, k, e.script(k));
      var next := k + |closed.submissions|;
      ExecutorErrors(e.market, i, t, None, None, t.notional, false, c.dryRun, next, e.script(next));
    }
  }

  /** An error that is not the program's own is raised, and only such an error; others become a failed result. */
  ghost predicate RaisesForeign(e: Env, returned: Result<ReconcileResult, Error>) {
    match returned
    case Err(error) => error in {ValueError, KeyError} && !e.market.Ready()
    case Ok(result) => result.message.Failed? && !result.suppressed ==> result.message.error !in {ValueError, KeyError}
  }

  lemma AfterErrors(c: Settings, e: Env, t: Target, initial: Option<Position>, s: State, attempt: nat)
    requires Classify(c, t, s.position) != Noop
    ensures
      var effect := ExecuteAction(c, e, t, s.position, attempt, |s.submissions|);
      var progress := AfterAction(c, e, t, initial, s, effect, attempt);
      progress.Done? ==> RaisesForeign(e, progress.run.returned)
  {
    hide StartCooldown;
    if e.market.Ready() {
      ActionErrors(c, e, t, s.position, attempt, |s.submissions|);
    }
    ActionStops(c, e, t, s.position, attempt, |s.submissions|);
    hide ExecuteAction, Classify, AbsNotionalOf, Market.Ready;
  }

  lemma AttemptErrors(c: Settings, e: Env, t: Target, initial: Option<Position>, s: State, attempt: nat)
    ensures
      var progress := Attempt(c, e, t, initial, s, attempt);
      progress.Done? ==> RaisesForeign(e, progress.run.returned)
  {
    if Classify(c, t, s.position) != Noop {
      AfterErrors(c, e, t, initial, s, attempt);
    }
    hide ExecuteAction, AfterAction, Classify, ClassifyExecuted, AbsNotionalOf, Suppresses, Market.Ready;
  }

  /**
    What a run raises: exactly the errors that are not the program's own, and none on a market that is listed with a
    positive price, step and contract size.
  */
  lemma RaisesOnlyForeignErrors(c: Settings, e: Env, t: Target, position: Option<Position>,
                                cooldown: Option<FailureCooldown>)
    ensures RaisesForeign(e, Reconcile(c, e, t, position, cooldown).returned)
  {
    EndOfRun(c, e, t, position, cooldown);
    var end := EndOf(c, e, t, position, cooldown);
    hide Reconcile, EndOf, Attempt, Market.Ready, Classify, ClassifyExecuted, AbsNotionalOf;
    if end.attempt <= c.maxRetries {
      AttemptErrors(c, e, t, position, end.state, end.attempt);
    }
  }

  // ----- What entry it leaves -----

  /** The entry a failed OPEN or ADD leaves, and nothing else does. */
  ghost function EntryFor(c: Settings, e: Env, t: Target, end: Ending, returned: Result<ReconcileResult, Error>)
    : Option<FailureCooldown>
  {
    var action := Classify(c, t, end.state.position);
    if c.failureCooldown > 0.0 && action in {Open, Add} && returned.Ok?
       && returned.value.action in {OrderFailed, RiskBlocked} then
      Some(FailureCooldown(e.clock(end.attempt).failed + c.failureCooldown, t.side, t.notional, action,
                           returned.value.action, returned.value.message))
    else None
  }

  lemma AttemptLeavesEntry(c: Settings, e: Env, t: Target, initial: Option<Position>, s: State, attempt: nat)
    requires !Suppresses(c, s.cooldown, t, Classify(c, t, s.position), e.clock(attempt).checked)
    ensures
      var progress := Attempt(c, e, t, initial, s, attempt);
      progress.Done? ==> progress.run.cooldown == EntryFor(c, e, t, Ending(s, attempt), progress.run.returned)
  {
    hide ClassifyExecuted, Error.IsPerpMirrorError, Suppresses;
    if Classify(c, t, s.position) != Noop {
      ActionStops(c, e, t, s.position, attempt, |s.submissions|);
    }
    ExecutedIsNoFailure(initial, t);
    ClassifyIsNoFailure(c, t, s.position);
    hide ExecuteAction, Classify, AbsNotionalOf;
  }

  /**
    A run that is not suppressed leaves an entry exactly if its last attempt was an OPEN or ADD that the exchange, the
    program or a risk rule refused, and that entry says so; every other run leaves none.
  */
  lemma LeavesEntryExactly(c: Settings, e: Env, t: Target, position: Option<Position>,
                           cooldown: Option<FailureCooldown>)
    requires c.maxRetries >= 0
    ensures
      var run := Reconcile(c, e, t, position, cooldown);
      run.cooldown ==
        if run.returned.Ok? && run.returned.value.suppressed then cooldown
        else EntryFor(c, e, t, EndOf(c, e, t, position, cooldown), run.returned)
  {
    EndOfRun(c, e, t, position, cooldown);
    SuppressedExactly(c, e, t, position, cooldown);
    ExecutedIsNoFailure(position, t);
    hide Reconcile, ClassifyExecuted, AbsNotionalOf, Classify, EntryFor, SameFailureTarget;
    var end := EndOf(c, e, t, position, cooldown);
    FirstEnding(c, e, t, position, cooldown);
    hide EndOf;
    if end.attempt <= c.maxRetries {
      if !Suppresses(c, end.state.cooldown, t, Classify(c, t, end.state.position), e.clock(end.attempt).checked) {
        AttemptLeavesEntry(c, e, t, position, end.state, end.attempt);
      }
      hide Attempt;
    } else {
      ExhaustedLeavesNoEntry(c, e, t, position, end);
    }
  }

  lemma FirstEnding(c: Settings, e: Env, t: Target, position: Option<Position>, cooldown: Option<FailureCooldown>)
    requires c.maxRetries >= 0
    ensures Suppresses(c, cooldown, t, Classify(c, t, position), e.clock(0).checked) ==>
      EndOf(c, e, t, position, cooldown) == Ending(State(position, [], [], cooldown), 0)
  {
    hide Suppresses, Classify, ExecuteAction;
  }

  lemma ExhaustedLeavesNoEntry(c: Settings, e: Env, t: Target, initial: Option<Position>, end: Ending)
    requires end.state.cooldown == None
    ensures
      var run := Exhausted(c, t, initial, end.state);
      && run.cooldown == None == EntryFor(c, e, t, end, run.returned)
      && run.returned.Ok? && !run.returned.value.suppressed
  {
    hide Classify, ClassifyExecuted, AbsNotionalOf;
    ExecutedIsNoFailure(initial, t);
  }

  // ----- What the entry does to the next call -----

  lemma AttemptIgnoresEntry(c: Settings, e: Env, t: Target, initial: Option<Position>, s: State, attempt: nat)
    requires !Suppresses(c, s.cooldown, t, Classify(c, t, s.position), e.clock(attempt).checked)
    ensures Attempt(c, e, t, initial, s, attempt) == Attempt(c, e, t, initial, s.(cooldown := None), attempt)
  {
    hide ExecuteAction, Classify, SameFailureTarget, ClassifyExecuted, AbsNotionalOf, Error.IsPerpMirrorError;
    hide StartCooldown;
  }

  /** An entry that does not suppress the call has no say in it. */
  lemma EntryIsIgnored(c: Settings, e: Env, t: Target, position: Option<Position>, cooldown: Option<FailureCooldown>)
    requires c.maxRetries >= 0
    requires !Suppresses(c, cooldown, t, Classify(c, t, position), e.clock(0).checked)
    ensures Reconcile(c, e, t, position, cooldown) == Reconcile(c, e, t, position, None)
  {
    var s := State(position, [], [], cooldown);
    AttemptIgnoresEntry(c, e, t, position, s, 0);
    hide Attempt, Suppresses, Classify;
    assert s.(cooldown := None) == State(position, [], [], None);
    LoopGoesOn(c, e, t, position, s, 0);
    LoopGoesOn(c, e, t, position, s.(cooldown := None), 0);
    if Attempt(c, e, t, position, s, 0).Done? {
      LoopOnce(c, e, t, position, s, 0);
      LoopOnce(c, e, t, position, s.(cooldown := None), 0);
    }
    hide Loop;
  }

  /** The same OPEN or ADD on the same side, for a notional within the drift of the first, within the cooldown. */
  predicate Repeats(c: Settings, t: Target, action: Action, failed: real, next: Target, nextAction: Action, now: real) {
    var distance := Abs(t.notional - next.notional);
    && nextAction == action && next.side == t.side
    && (distance <= c.driftMin || distance <= t.notional * c.driftPercent / 100.0)
    && now < failed + c.failureCooldown
  }

  lemma SuppressesRepeats(c: Settings, t: Target, entry: FailureCooldown, failed: real, next: Target,
                          nextAction: Action, now: real)
    requires entry.deadline == failed + c.failureCooldown && entry.side == t.side && entry.notional == t.notional
    requires entry.requestAction in {Open, Add}
    ensures Suppresses(c, Some(entry), next, nextAction, now)
       <==> Repeats(c, t, entry.requestAction, failed, next, nextAction, now)
  {
    WithinTolerance(c, t.notional, Abs(t.notional - next.notional));
    hide Tolerance;
  }

  /** The entry of a call that was tried, and what that call came to. */
  lemma EntryTells(c: Settings, e: Env, t: Target, position: Option<Position>, cooldown: Option<FailureCooldown>)
    requires c.maxRetries >= 0
    requires
      var run := Reconcile(c, e, t, position, cooldown);
      run.cooldown.Some? && !(run.returned.Ok? && run.returned.value.suppressed)
    ensures
      var run := Reconcile(c, e, t, position, cooldown);
      var end := EndOf(c, e, t, position, cooldown);
      var action := Classify(c, t, end.state.position);
      && action in {Open, Add} && run.returned.Ok? && !run.returned.value.success
      && run.cooldown.value == FailureCooldown(e.clock(end.attempt).failed + c.failureCooldown, t.side, t.notional,
                                               action, run.returned.value.action, run.returned.value.message)
  {
    hide Reconcile, EndOf, Classify;
    LeavesEntryExactly(c, e, t, position, cooldown);
    EntryComesFromFailure(c, e, t, position, cooldown);
  }

  /**
    Two calls in a row. The first was tried and left an entry. Then the second, whatever its target, the position it
    finds and everything else it reads, is answered from that entry if and only if it repeats the first; otherwise
    it runs as if there were no entry.
  */
  lemma SecondCallIsSuppressedExactly(c: Settings, e: Env, t: Target, position: Option<Position>,
                                      cooldown: Option<FailureCooldown>,
                                      later: Env, next: Target, found: Option<Position>)
    requires c.maxRetries >= 0
    requires
      var first := Reconcile(c, e, t, position, cooldown);
      first.cooldown.Some? && !(first.returned.Ok? && first.returned.value.suppressed)
    ensures
      var first := Reconcile(c, e, t, position, cooldown);
      var end := EndOf(c, e, t, position, cooldown);
      var second := Reconcile(c, later, next, found, first.cooldown);
      var action := Classify(c, t, end.state.position);
      && action in {Open, Add} && first.returned.Ok?
      && if Repeats(c, t, action, e.clock(end.attempt).failed, next, Classify(c, next, found), later.clock(0).checked)
         then
           && second.returned.Ok? && second.returned.value.suppressed && !second.returned.value.success
           && second.returned.value.action == first.returned.value.action
           && second.returned.value.message == first.returned.value.message
           && second.submissions == [] && second.position == found && second.cooldown == first.cooldown
         else
           && second == Reconcile(c, later, next, found, None)
           && !(second.returned.Ok? && second.returned.value.suppressed)
  {
    hide Reconcile, EndOf, Classify, Repeats, Suppresses;
    EntryTells(c, e, t, position, cooldown);
    var entry := Reconcile(c, e, t, position, cooldown).cooldown;
    var end := EndOf(c, e, t, position, cooldown);
    SuppressesRepeats(c, t, entry.value, e.clock(end.attempt).failed, next, Classify(c, next, found),
                      later.clock(0).checked);
    SuppressedExactly(c, later, next, found, entry);
    if Suppresses(c, entry, next, Classify(c, next, found), later.clock(0).checked) {
      AnswerFromEntry(c, later, next, found, entry);
    } else {
      EntryIsIgnored(c, later, next, found, entry);
    }
  }

  lemma AnswerFromEntry(c: Settings, e: Env, t: Target, position: Option<Position>, cooldown: Option<FailureCooldown>)
    requires c.maxRetries >= 0
    requires Suppresses(c, cooldown, t, Classify(c, t, position), e.clock(0).checked)
    ensures cooldown.Some?
    ensures
      var run := Reconcile(c, e, t, position, cooldown);
      && run.returned.Ok? && !run.returned.value.success
      && run.returned.value.action == cooldown.value.resultAction
      && run.returned.value.message == cooldown.value.message
  {
    hide Classify, ExecuteAction, SameFailureTarget, ClassifyExecuted, AbsNotionalOf, AfterAction;
    LoopOnce(c, e, t, position, State(position, [], [], cooldown), 0);
  }

  /** A failure leaves an entry only with a result that is no success. */
  lemma EntryComesFromFailure(c: Settings, e: Env, t: Target, position: Option<Position>,
                              cooldown: Option<FailureCooldown>)
    requires c.maxRetries >= 0
    requires
      var run := Reconcile(c, e, t, position, cooldown);
      run.cooldown.Some? && !(run.returned.Ok? && run.returned.value.suppressed)
    ensures
      var run := Reconcile(c, e, t, position, cooldown);
      run.returned.Ok? && !run.returned.value.success
  {
    SuppressedExactly(c, e, t, position, cooldown);
    hide Suppresses;
    EntryIsIgnored(c, e, t, position, cooldown);
    hide Reconcile, Classify;
    ReportIsTruthful(c, e, t, position, None);
  }
}
