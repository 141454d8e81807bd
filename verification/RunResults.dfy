/** What a run reports, and what it leaves in the cooldown table. No assumption on market, script or portfolio. */
module RunResults {
  import opened Wrappers
  import opened Models
  import opened Exchange
  import opened Executor
  import opened Reconciler
  import Risk

  /** Entries are only written for these two results. */
  predicate GoodEntry(cooldown: Option<FailureCooldown>) {
    cooldown.Some? ==>
      cooldown.value.resultAction in {OrderFailed, RiskBlocked} && cooldown.value.requestAction in {Open, Add}
  }

  /** What a finished run says is true of the state it leaves. */
  ghost predicate Truthful(c: Settings, t: Target, run: Run) {
    && GoodEntry(run.cooldown)
    && (run.cooldown.Some? ==>
          run.returned.Ok? && !run.returned.value.success && run.returned.value.action in {OrderFailed, RiskBlocked})
    && (run.returned.Ok? ==> run.returned.value.finalNotional == Some(AbsNotionalOf(run.position)))
    && (run.returned.Ok? && run.returned.value.success && !c.dryRun ==> Classify(c, t, run.position) == Noop)
  }

  lemma ActionReports(c: Settings, e: Env, t: Target, position: Option<Position>, attempt: nat, n: nat)
    requires Classify(c, t, position) != Noop
    ensures
      var effect := ExecuteAction(c, e, t, position, attempt, n);
      && (effect.outcome.Stopped? ==>
            && !effect.outcome.result.success
            && effect.outcome.result.action in {OrderFailed, RiskBlocked}
            && effect.outcome.result.finalNotional == Some(AbsNotionalOf(effect.position)))
      && (c.dryRun ==> effect.position == position && effect.submissions == [])
  {
    hide Risk.Check, Submit, DeltaQuantity, CloseQuantity, DeltaRequest, CloseRequest, OrderNotional;
  }

  lemma AttemptReports(c: Settings, e: Env, t: Target, initial: Option<Position>, s: State, attempt: nat)
    requires GoodEntry(s.cooldown) && (c.dryRun ==> s.position == initial)
    ensures
      match Attempt(c, e, t, initial, s, attempt)
      case Done(run) => Truthful(c, t, run)
      case Continue(next) => next.cooldown == None && !c.dryRun
  {
    hide ExecuteAction, SameFailureTarget, ClassifyExecuted, Error.IsPerpMirrorError;
    if Classify(c, t, s.position) != Noop {
      ActionReports(c, e, t, s.position, attempt, |s.submissions|);
    }
    hide Classify, AbsNotionalOf;
  }

  lemma {:induction false} LoopReports(c: Settings, e: Env, t: Target, initial: Option<Position>, s: State,
                                       attempt: nat)
    requires GoodEntry(s.cooldown) && (c.dryRun ==> s.position == initial)
    requires attempt > c.maxRetries ==> s.cooldown == None
    ensures Truthful(c, t, Loop(c, e, t, initial, s, attempt))
    decreases c.maxRetries + 1 - attempt
  {
    hide Attempt, Classify, ClassifyExecuted;
    if attempt <= c.maxRetries {
      AttemptReports(c, e, t, initial, s, attempt);
      match Attempt(c, e, t, initial, s, attempt)
      case Done(_) =>
      case Continue(next) => LoopReports(c, e, t, initial, next, attempt + 1);
    }
  }

  /**
    Whatever happens in a run that makes at least one attempt: the reported final notional is the position's,
    a live success means the position classifies NOOP, and a cooldown entry is left only by a failure.
  */
  lemma ReportIsTruthful(c: Settings, e: Env, t: Target, position: Option<Position>, cooldown: Option<FailureCooldown>)
    requires c.maxRetries >= 0 && GoodEntry(cooldown)
    ensures Truthful(c, t, Reconcile(c, e, t, position, cooldown))
  {
    LoopReports(c, e, t, position, State(position, [], [], cooldown), 0);
  }

  /** After a live success, the same target again submits nothing, reports NOOP and changes nothing. */
  lemma SuccessIsStable(c: Settings, e: Env, again: Env, t: Target, position: Option<Position>,
                        cooldown: Option<FailureCooldown>)
    requires c.maxRetries >= 0 && !c.dryRun && GoodEntry(cooldown)
    requires
      var run := Reconcile(c, e, t, position, cooldown);
      run.returned.Ok? && run.returned.value.success
    ensures
      var run := Reconcile(c, e, t, position, cooldown);
      var rerun := Reconcile(c, again, t, run.position, run.cooldown);
      && rerun.submissions == [] && rerun.position == run.position && rerun.cooldown == None
      && rerun.returned.Ok? && rerun.returned.value.success && rerun.returned.value.action == Noop
      && rerun.returned.value.orderResults == []
  {
    hide Loop, Classify, ClassifyExecuted, AbsNotionalOf;
    var run := Reconcile(c, e, t, position, cooldown);
    ReportIsTruthful(c, e, t, position, cooldown);
    var start := State(run.position, [], [], run.cooldown);
    LoopOnce(c, again, t, run.position, start, 0);
  }

  /** A loop that stops in its first attempt is that attempt. */
  lemma LoopOnce(c: Settings, e: Env, t: Target, initial: Option<Position>, s: State, attempt: nat)
    requires attempt <= c.maxRetries && Attempt(c, e, t, initial, s, attempt).Done?
    ensures Loop(c, e, t, initial, s, attempt) == Attempt(c, e, t, initial, s, attempt).run
  {
    hide Attempt;
  }

  /** The loop after an attempt that goes on, and after the last attempt. */
  lemma LoopGoesOn(c: Settings, e: Env, t: Target, initial: Option<Position>, s: State, attempt: nat)
    ensures attempt > c.maxRetries ==> Loop(c, e, t, initial, s, attempt) == Exhausted(c, t, initial, s)
    ensures attempt <= c.maxRetries && Attempt(c, e, t, initial, s, attempt).Continue? ==>
      Loop(c, e, t, initial, s, attempt) == Loop(c, e, t, initial, Attempt(c, e, t, initial, s, attempt).state,
                                                 attempt + 1)
  {
    hide Attempt, Exhausted;
  }

  /** A dry run decides and reports, but submits nothing and moves nothing. */
  lemma DryRunTradesNothing(c: Settings, e: Env, t: Target, position: Option<Position>,
                            cooldown: Option<FailureCooldown>)
    requires c.dryRun
    ensures Reconcile(c, e, t, position, cooldown).submissions == []
    ensures Reconcile(c, e, t, position, cooldown).position == position
  {
    var s := State(position, [], [], cooldown);
    DryAttempt(c, e, t, position, s, 0);
    hide Attempt;
    if c.maxRetries >= 0 {
      LoopOnce(c, e, t, position, s, 0);
    }
  }

  lemma DryAttempt(c: Settings, e: Env, t: Target, initial: Option<Position>, s: State, attempt: nat)
    requires c.dryRun && s.submissions == []
    ensures
      var progress := Attempt(c, e, t, initial, s, attempt);
      progress.Done? && progress.run.submissions == [] && progress.run.position == s.position
  {
    hide ExecuteAction, Suppresses, ClassifyExecuted, Error.IsPerpMirrorError, StartCooldown;
    if Classify(c, t, s.position) != Noop {
      ActionReports(c, e, t, s.position, attempt, 0);
    }
    hide Classify, AbsNotionalOf;
  }

  /** Without a cooldown entry no answer is suppressed. */
  lemma {:induction false} NeverSuppressedWithoutEntry(c: Settings, e: Env, t: Target, initial: Option<Position>,
                                                       s: State, attempt: nat)
    requires s.cooldown == None
    ensures
      var run := Loop(c, e, t, initial, s, attempt);
      run.returned.Ok? ==> !run.returned.value.suppressed
    decreases c.maxRetries + 1 - attempt
  {
    if attempt <= c.maxRetries {
      AttemptNotSuppressed(c, e, t, initial, s, attempt);
      hide Attempt;
      match Attempt(c, e, t, initial, s, attempt)
      case Done(_) =>
      case Continue(next) => NeverSuppressedWithoutEntry(c, e, t, initial, next, attempt + 1);
    }
  }

  lemma AttemptNotSuppressed(c: Settings, e: Env, t: Target, initial: Option<Position>, s: State, attempt: nat)
    requires !Suppresses(c, s.cooldown, t, Classify(c, t, s.position), e.clock(attempt).checked)
    ensures
      match Attempt(c, e, t, initial, s, attempt)
      case Done(run) => run.returned.Ok? ==> !run.returned.value.suppressed
      case Continue(next) => next.cooldown == None
  {
    hide Suppresses, ClassifyExecuted, Error.IsPerpMirrorError, StartCooldown;
    if Classify(c, t, s.position) != Noop {
      ActionNotSuppressed(c, e, t, s.position, attempt, |s.submissions|);
    }
    hide ExecuteAction, Classify, AbsNotionalOf;
  }

  lemma ActionNotSuppressed(c: Settings, e: Env, t: Target, position: Option<Position>, attempt: nat, n: nat)
    requires Classify(c, t, position) != Noop
    ensures
      var effect := ExecuteAction(c, e, t, position, attempt, n);
      effect.outcome.Stopped? ==> !effect.outcome.result.suppressed
  {
    hide Risk.Check, Submit, DeltaQuantity, CloseQuantity, DeltaRequest, CloseRequest, OrderNotional;
  }

  /**
    Suppression, exactly: an OPEN or ADD for the same target strictly before the entry's deadline. So closing,
    reducing and flipping are never suppressed, and a call at the deadline or later tries again. A suppressed
    call leaves the position and the entry as they were.
  */
  lemma SuppressedExactly(c: Settings, e: Env, t: Target, position: Option<Position>, cooldown: Option<FailureCooldown>)
    requires c.maxRetries >= 0
    ensures
      var run := Reconcile(c, e, t, position, cooldown);
      var suppresses := Suppresses(c, cooldown, t, Classify(c, t, position), e.clock(0).checked);
      && (run.returned.Ok? && run.returned.value.suppressed <==> suppresses)
      && (suppresses ==> run.submissions == [] && run.position == position && run.cooldown == cooldown)
  {
    hide Suppresses, ExecuteAction, Classify, ClassifyExecuted, AbsNotionalOf, AfterAction;
    var s := State(position, [], [], cooldown);
    if Suppresses(c, cooldown, t, Classify(c, t, position), e.clock(0).checked) {
      LoopOnce(c, e, t, position, s, 0);
    } else {
      AttemptNotSuppressed(c, e, t, position, s, 0);
      hide Attempt;
      match Attempt(c, e, t, position, s, 0)
      case Done(_) =>
      case Continue(next) => NeverSuppressedWithoutEntry(c, e, t, position, next, 1);
    }
  }
}
