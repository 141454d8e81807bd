/** How often a failing order is retried: sequences of `reconcile` calls for one follower and symbol. */
module Cooldown {
  import opened Wrappers
  import opened Models
  import opened Exchange
  import opened Executor
  import opened Reconciler
  import opened RunResults
  import Risk

  datatype Call = Call(env: Env, target: Target)

  /** The runs of successive calls; each starts from the position and the cooldown entry the previous one left. */
  ghost function History(c: Settings, calls: seq<Call>, position: Option<Position>, cooldown: Option<FailureCooldown>)
    : (runs: seq<Run>)
    ensures |runs| == |calls|
  {
    if calls == [] then []
    else
      var run := Reconcile(c, calls[0].env, calls[0].target, position, cooldown);
      [run] + History(c, calls[1..], run.position, run.cooldown)
  }

  ghost predicate Rejecting(e: Env) {
    forall k: nat :: e.script(k) == Reject
  }

  /** The clock never goes back, within an attempt or from one call to the next. */
  ghost predicate ClockRuns(calls: seq<Call>, now: real) {
    calls != [] ==>
      var moment := calls[0].env.clock(0);
      now <= moment.checked <= moment.submitted <= moment.failed && ClockRuns(calls[1..], moment.failed)
  }

  /** When the calls that reached the exchange submitted their first order. */
  function SubmissionTimes(calls: seq<Call>, runs: seq<Run>): seq<real>
    requires |calls| == |runs|
  {
    if calls == [] then []
    else
      (if runs[0].submissions != [] then [calls[0].env.clock(0).submitted] else []) + SubmissionTimes(calls[1..],
                                                                                                      runs[1..])
  }

  /**
    Against a rejecting exchange an OPEN or ADD submits at most once, moves nothing, and a submission starts the
    cooldown.
  */
  lemma RejectedCall(c: Settings, e: Env, t: Target, position: Option<Position>, cooldown: Option<FailureCooldown>)
    requires c.maxRetries >= 0 && !c.dryRun && c.failureCooldown > 0.0
    requires Rejecting(e)
    requires Classify(c, t, position) in {Open, Add}
    ensures
      var run := Reconcile(c, e, t, position, cooldown);
      var action := Classify(c, t, position);
      && run.position == position && |run.submissions| <= 1
      && (run.submissions != [] ==>
            && !Suppresses(c, cooldown, t, action, e.clock(0).checked)
            && run.cooldown == StartCooldown(c, t, action, OrderFailed, Failed(ExchangeRejection), e.clock(0).failed))
  {
    var action := Classify(c, t, position);
    var s := State(position, [], [], cooldown);
    hide Classify;
    if !Suppresses(c, cooldown, t, action, e.clock(0).checked) {
      RejectedAction(c, e, t, position, 0);
    }
    hide ExecuteAction, Suppresses, StartCooldown, AbsNotionalOf, ClassifyExecuted, Rejecting;
    LoopOnce(c, e, t, position, s, 0);
  }

  lemma RejectedAction(c: Settings, e: Env, t: Target, position: Option<Position>, attempt: nat)
    requires Rejecting(e) && !c.dryRun
    requires Classify(c, t, position) in {Open, Add}
    ensures
      var effect := ExecuteAction(c, e, t, position, attempt, 0);
      && effect.position == position && |effect.submissions| <= 1 && !effect.outcome.Orders?
      && (effect.submissions != [] ==> effect.outcome == Raises(ExchangeRejection))
  {
    assert e.script(e.firstOrder + 0) == Reject;
    hide Risk.Check, DeltaQuantity, DeltaRequest, OrderNotional, Rejecting, Classify;
  }

  /**
    The entry a failure leaves suppresses the same call exactly until its deadline, provided the tolerance is
    not negative: with a negative one a target is not even the same as itself, and nothing is ever suppressed.
  */
  lemma OwnFailureSuppresses(c: Settings, t: Target, action: Action, message: Message, failed: real, now: real)
    requires action in {Open, Add}
    ensures
      var entry := StartCooldown(c, t, action, OrderFailed, message, failed);
      var lasts := c.failureCooldown > 0.0 && now < failed + c.failureCooldown;
      Suppresses(c, entry, t, action, now) <==> lasts && Tolerance(c, t.notional) >= 0.0
  {
    hide Tolerance;
  }

  /** Retrying is over until `deadline`: the entry still suppresses this target, or the deadline has passed. */
  ghost predicate Waiting(c: Settings, t: Target, action: Action, cooldown: Option<FailureCooldown>, now: real,
                          deadline: real)
  {
    || now >= deadline
    || (cooldown.Some? && SameFailureTarget(c, cooldown.value, t, action) && cooldown.value.deadline >= deadline)
  }

  ghost predicate SameTarget(calls: seq<Call>, t: Target) {
    forall k :: 0 <= k < |calls| ==> calls[k].target == t && Rejecting(calls[k].env)
  }

  lemma {:induction false} RateFrom(c: Settings, calls: seq<Call>, t: Target, position: Option<Position>,
                                    cooldown: Option<FailureCooldown>, now: real, deadline: real)
    requires c.maxRetries >= 0 && !c.dryRun && c.failureCooldown > 0.0 && Tolerance(c, t.notional) >= 0.0
    requires SameTarget(calls, t) && ClockRuns(calls, now)
    requires Classify(c, t, position) in {Open, Add}
    requires Waiting(c, t, Classify(c, t, position), cooldown, now, deadline)
    ensures
      var times := SubmissionTimes(calls, History(c, calls, position, cooldown));
      forall k :: 0 <= k < |times| ==> times[k] >= deadline + Times(k, c.failureCooldown)
  {
    if calls != [] {
      var e := calls[0].env;
      var action := Classify(c, t, position);
      var run := Reconcile(c, e, t, position, cooldown);
      assert calls[0].target == t && Rejecting(e);
      RejectedCall(c, e, t, position, cooldown);
      SuppressedExactly(c, e, t, position, cooldown);
      hide Reconcile, Classify, Times, Product;
      var rest := calls[1..];
      assert SameTarget(rest, t);
      var moment := e.clock(0);
      if run.submissions != [] {
        var next := moment.failed + c.failureCooldown;
        RateFrom(c, rest, t, position, run.cooldown, moment.failed, next);
        ShiftTimes(c.failureCooldown, deadline, moment.submitted, next,
                   SubmissionTimes(rest, History(c, rest, position, run.cooldown)));
      } else {
        RateFrom(c, rest, t, position, run.cooldown, moment.failed, deadline);
      }
    }
  }

  lemma ShiftTimes(wait: real, deadline: real, first: real, next: real, later: seq<real>)
    requires deadline <= first && first + wait <= next
    requires forall k :: 0 <= k < |later| ==> later[k] >= next + Times(k, wait)
    ensures
      var times := [first] + later;
      forall k :: 0 <= k < |times| ==> times[k] >= deadline + Times(k, wait)
  {
    var times := [first] + later;
    forall k | 0 <= k < |times|
      ensures times[k] >= deadline + Times(k, wait)
    {
      if k > 0 {
        assert times[k] == later[k - 1];
        MulNext((k - 1) as real, wait);
      }
    }
  }

  /**
    With a fixed target, an exchange that rejects every order and a clock that never goes back, the k-th
    submission of an OPEN or ADD comes at least k cooldowns after the first, however often the call is made.
  */
  lemma {:induction false} FailureRateBound(c: Settings, calls: seq<Call>, t: Target, position: Option<Position>,
                         cooldown: Option<FailureCooldown>, now: real)
    requires c.maxRetries >= 0 && !c.dryRun && c.failureCooldown > 0.0 && Tolerance(c, t.notional) >= 0.0
    requires SameTarget(calls, t) && ClockRuns(calls, now)
    requires Classify(c, t, position) in {Open, Add}
    ensures
      var times := SubmissionTimes(calls, History(c, calls, position, cooldown));
      forall k :: 0 <= k < |times| ==> times[k] >= times[0] + Times(k, c.failureCooldown)
  {
    if calls != [] {
      var e := calls[0].env;
      var run := Reconcile(c, e, t, position, cooldown);
      assert calls[0].target == t && Rejecting(e);
      RejectedCall(c, e, t, position, cooldown);
      hide Reconcile, Classify, Times, Product;
      var rest := calls[1..];
      assert SameTarget(rest, t);
      var moment := e.clock(0);
      if run.submissions != [] {
        var next := moment.failed + c.failureCooldown;
        RateFrom(c, rest, t, position, run.cooldown, moment.failed, next);
        ShiftTimes(c.failureCooldown, moment.submitted, moment.submitted, next,
                   SubmissionTimes(rest, History(c, rest, position, run.cooldown)));
      } else {
        FailureRateBound(c, rest, t, position, run.cooldown, moment.failed);
      }
    }
  }
}
