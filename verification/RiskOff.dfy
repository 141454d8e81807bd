/** Where the risk configuration forbids new risk, runs can only shrink a position (perpmirror/risk/manager.py). */
module RiskOff {
  import opened Wrappers
  import opened Models
  import opened Exchange
  import opened Executor
  import opened Reconciler
  import opened Motion
  import opened RunSafety
  import opened Cooldown
  import Risk

  /** A rule that looks at the target alone refuses every increase. */
  predicate IncreasesBlocked(c: Settings, t: Target) {
    || c.risk.killSwitch
    || (t.side == Short && !c.risk.allowShort)
    || (c.risk.symbolAllowlist != {} && t.symbol !in c.risk.symbolAllowlist)
    || t.symbol in c.risk.symbolBlocklist
    || t.leverage > c.risk.maxLeverage
    || t.notional > c.risk.maxSingleSymbolNotional
  }

  /** The kill switch is on and does not even let positions be closed. */
  predicate Frozen(c: Settings) {
    c.risk.killSwitch && !c.risk.killSwitchClosePositions
  }

  ghost predicate OnlyReduces(submissions: seq<Submission>) {
    forall s :: s in submissions ==> s.request.reduceOnly
  }

  lemma ActionOnlyReduces(c: Settings, e: Env, t: Target, position: Option<Position>, attempt: nat, n: nat)
    requires IncreasesBlocked(c, t) && Classify(c, t, position) != Noop
    ensures
      var effect := ExecuteAction(c, e, t, position, attempt, n);
      OnlyReduces(effect.submissions) && (Frozen(c) ==> effect.submissions == [])
  {
    hide Place, DeltaQuantity, CloseQuantity, OrderNotional, Risk.TotalNotional;
  }

  lemma AttemptOnlyReduces(c: Settings, e: Env, t: Target, initial: Option<Position>, s: State, attempt: nat)
    requires IncreasesBlocked(c, t)
    requires OnlyReduces(s.submissions) && (Frozen(c) ==> s.submissions == [])
    ensures
      var submissions := match Attempt(c, e, t, initial, s, attempt)
                         case Done(run) => run.submissions
                         case Continue(next) => next.submissions;
      OnlyReduces(submissions) && (Frozen(c) ==> submissions == [])
  {
    hide Suppresses, ClassifyExecuted, Error.IsPerpMirrorError, StartCooldown;
    if Classify(c, t, s.position) != Noop {
      ActionOnlyReduces(c, e, t, s.position, attempt, |s.submissions|);
    }
    hide ExecuteAction, Classify, AbsNotionalOf;
  }

  lemma {:induction false} LoopOnlyReduces(c: Settings, e: Env, t: Target, initial: Option<Position>, s: State,
                                           attempt: nat)
    requires IncreasesBlocked(c, t)
    requires OnlyReduces(s.submissions) && (Frozen(c) ==> s.submissions == [])
    ensures
      var run := Loop(c, e, t, initial, s, attempt);
      OnlyReduces(run.submissions) && (Frozen(c) ==> run.submissions == [])
    decreases c.maxRetries + 1 - attempt
  {
    if attempt <= c.maxRetries {
      AttemptOnlyReduces(c, e, t, initial, s, attempt);
      hide Attempt, OnlyReduces;
      match Attempt(c, e, t, initial, s, attempt)
      case Done(_) =>
      case Continue(next) => LoopOnlyReduces(c, e, t, initial, next, attempt + 1);
    }
  }

  lemma {:induction false} ReducingJourneyShrinks(m: Market, t: Target, from: Option<Position>,
                                                  submissions: seq<Submission>, to: Option<Position>)
    requires m.Ready() && Journey(m, t, from, submissions, to) && OnlyReduces(submissions)
    ensures Abs(Signed(to)) <= Abs(Signed(from)) && !(Signed(from) < 0.0 < Signed(to))
    ensures !(Signed(to) < 0.0 < Signed(from))
    decreases |submissions|
  {
    if submissions != [] {
      JourneyPrefix(m, t, from, submissions, to);
      hide Journey, Signed, Approaches;
      var last := submissions[|submissions| - 1];
      ReducingJourneyShrinks(m, t, from, submissions[..|submissions| - 1], last.before);
    }
  }

  /** A run whose target breaks one of these rules never grows or turns the position. */
  lemma RunOnlyShrinks(c: Settings, e: Env, t: Target, position: Option<Position>, cooldown: Option<FailureCooldown>)
    requires e.market.Ready() && e.market.Booked(position)
    requires IncreasesBlocked(c, t)
    ensures
      var run := Reconcile(c, e, t, position, cooldown);
      && OnlyReduces(run.submissions)
      && (Frozen(c) ==> run.submissions == [] && run.position == position)
      && e.market.Booked(run.position)
      && Abs(Signed(run.position)) <= Abs(Signed(position))
      && !(Signed(position) < 0.0 < Signed(run.position)) && !(Signed(run.position) < 0.0 < Signed(position))
  {
    hide Loop, Signed, Market.Booked;
    RunIsSafe(c, e, t, position, cooldown);
    LoopOnlyReduces(c, e, t, position, State(position, [], [], cooldown), 0);
    var run := Reconcile(c, e, t, position, cooldown);
    ReducingJourneyShrinks(e.market, t, position, run.submissions, run.position);
  }

  /** Run after run, orders only reduce and the notional only falls; a frozen account sees no order at all. */
  ghost predicate Shrinking(c: Settings, position: Option<Position>, runs: seq<Run>)
    decreases |runs|
  {
    runs != [] ==>
      && OnlyReduces(runs[0].submissions)
      && (Frozen(c) ==> runs[0].submissions == [])
      && AbsNotionalOf(runs[0].position) <= AbsNotionalOf(position)
      && Shrinking(c, runs[0].position, runs[1..])
  }

  /** The targets may change from call to call and so may everything the runs read, except the price. */
  lemma {:induction false} RiskStaysOff(c: Settings, m: Market, calls: seq<Call>, position: Option<Position>,
                                        cooldown: Option<FailureCooldown>)
    requires m.Ready() && m.Booked(position)
    requires forall call :: call in calls ==> call.env.market == m && IncreasesBlocked(c, call.target)
    ensures Shrinking(c, position, History(c, calls, position, cooldown))
  {
    hide Reconcile, IncreasesBlocked, OnlyReduces, Frozen, Market.Booked, Signed, AbsNotionalOf;
    if calls != [] {
      var e, t := calls[0].env, calls[0].target;
      assert calls[0] in calls;
      RunOnlyShrinks(c, e, t, position, cooldown);
      var run := Reconcile(c, e, t, position, cooldown);
      SmallerQuantitySmallerNotional(m, position, run.position);
      RiskStaysOff(c, m, calls[1..], run.position, run.cooldown);
      assert History(c, calls, position, cooldown)[1..] == History(c, calls[1..], run.position, run.cooldown);
    }
  }

  lemma SmallerQuantitySmallerNotional(m: Market, larger: Option<Position>, smaller: Option<Position>)
    requires m.Ready() && m.Booked(larger) && m.Booked(smaller)
    requires Abs(Signed(smaller)) <= Abs(Signed(larger))
    ensures AbsNotionalOf(smaller) <= AbsNotionalOf(larger)
  {
    hide Product;
    WorthLaws(m, 0.0, Abs(Signed(larger)));
    WorthLaws(m, 0.0, Abs(Signed(smaller)));
    WorthLaws(m, Abs(Signed(smaller)), Abs(Signed(larger)));
    SideMatchesValue(m, larger);
    SideMatchesValue(m, smaller);
  }
}
