/** From leader positions to follower positions: how closely a whole portfolio tracks (README, copy modes). */
module Tracking {
  import opened Wrappers
  import opened Models
  import opened Exchange
  import opened Reconciler
  import opened RunSafety
  import opened RunResults
  import opened Calculator

  /**
    FIXED mode: while the leader holds a position, its size and both accounts' equities leave the target
    alone; only the side and the leverage count.
  */
  lemma FixedTargetIgnoresSize(f: Follower, one: LeaderPosition, other: LeaderPosition, symbol: string,
                               leaderEquity: real, followerEquity: real, laterLeaderEquity: real,
                               laterFollowerEquity: real)
    requires f.copyMode == Fixed && one.side == other.side && (f.copyLeverage ==> one.leverage == other.leverage)
    ensures Calculate(f, Some(one), leaderEquity, followerEquity, symbol)
         == Calculate(f, Some(other), laterLeaderEquity, laterFollowerEquity, symbol)
  {}

  /** FIXED mode: the target is the margin times the follower's leverage, and nothing once the leader is flat. */
  lemma FixedTargetIsMarginTimesLeverage(f: Follower, leader: Option<LeaderPosition>, leaderEquity: real,
                                         followerEquity: real, symbol: string)
    requires f.copyMode == Fixed && Calculate(f, leader, leaderEquity, followerEquity, symbol).Ok?
    ensures
      var t := Calculate(f, leader, leaderEquity, followerEquity, symbol).value;
      && t.side == SideOf(leader)
      && t.notional == (if t.side == Flat then 0.0 else Product(OrZero(f.fixedMargin), t.leverage))
      && (OrZero(f.fixedMargin) >= 0.0 ==> 0.0 <= t.notional <= Product(OrZero(f.fixedMargin), f.maxLeverage))
  {
    var leverage := LeverageFor(f, leader);
    if OrZero(f.fixedMargin) >= 0.0 {
      ProductIsMonotone(OrZero(f.fixedMargin), leverage, f.maxLeverage);
    }
  }

  lemma ProductIsMonotone(x: real, y: real, z: real)
    requires 0.0 <= x && 0.0 <= y <= z
    ensures 0.0 <= Product(x, y) <= Product(x, z)
  {}

  /**
    Copied or fixed, the leverage is positive and the greatest within the follower's own limit; otherwise there is no
    target.
  */
  lemma LeverageIsCapped(f: Follower, leader: Option<LeaderPosition>, leaderEquity: real, followerEquity: real,
                         symbol: string)
    ensures
      var r := Calculate(f, leader, leaderEquity, followerEquity, symbol);
      var wanted := if f.copyLeverage && leader.Some? then leader.value.leverage else f.fixedLeverage;
      && (r.Ok? ==> r.value.followerId == f.id && r.value.symbol == symbol && 0.0 < r.value.leverage)
      && (r.Ok? ==>
            && r.value.leverage <= wanted && r.value.leverage <= f.maxLeverage
            && (r.value.leverage == wanted || r.value.leverage == f.maxLeverage))
      && (r.Err? <==>
            || f.maxLeverage <= 0.0 || wanted <= 0.0
            || (f.copyMode == Ratio && (followerEquity < 0.0 || (SideOf(leader) != Flat && leaderEquity <= 0.0))))
  {}

  /** RATIO mode: leverage has no say in the size of the target. */
  lemma RatioTargetIgnoresLeverage(f: Follower, other: Follower, leader: LeaderPosition, leverage: real,
                                   leaderEquity: real, followerEquity: real, symbol: string)
    requires f.copyMode == Ratio
    requires other == f.(copyLeverage := other.copyLeverage, fixedLeverage := other.fixedLeverage,
                         maxLeverage := other.maxLeverage)
    requires Calculate(f, Some(leader), leaderEquity, followerEquity, symbol).Ok?
    requires Calculate(other, Some(leader.(leverage := leverage)), leaderEquity, followerEquity, symbol).Ok?
    ensures
      var one := Calculate(f, Some(leader), leaderEquity, followerEquity, symbol).value;
      var two := Calculate(other, Some(leader.(leverage := leverage)), leaderEquity, followerEquity, symbol).value;
      one.notional == two.notional && one.side == two.side
  {}

  /** One symbol of one follower in a cycle: the leader's position, the follower's, and what the run reads. */
  datatype Copy = Copy(symbol: string, leader: Option<LeaderPosition>, env: Env, position: Option<Position>,
                       cooldown: Option<FailureCooldown>)

  /** A leader position has a side; an exchange does not report flat ones. */
  predicate Held(leader: Option<LeaderPosition>) {
    leader.Some? ==> leader.value.side != Flat
  }

  function Scale(f: Follower, leaderEquity: real, followerEquity: real): real {
    if leaderEquity > 0.0 then followerEquity / leaderEquity * OrZero(f.copyRatio) else 0.0
  }

  lemma ScaledNotional(equity: real, notional: real, leaderEquity: real, ratio: real)
    requires leaderEquity > 0.0
    ensures equity * (notional / leaderEquity) * ratio == Product(equity / leaderEquity * ratio, notional)
  {
    var n, q := notional / leaderEquity, equity / leaderEquity;
    assert n * leaderEquity == notional && q * leaderEquity == equity;
    assert equity * n * ratio == q * leaderEquity * n * ratio;
    assert q * leaderEquity * n * ratio == q * ratio * (n * leaderEquity);
  }

  /**
    RATIO mode: the target is the leader's exposure scaled by the equities and the copy ratio, whatever the
    leverage.
  */
  lemma RatioTargetIsScaled(f: Follower, leader: Option<LeaderPosition>, leaderEquity: real, followerEquity: real,
                            symbol: string)
    requires f.copyMode == Ratio && leaderEquity > 0.0 && Held(leader)
    requires Calculate(f, leader, leaderEquity, followerEquity, symbol).Ok?
    ensures
      var t := Calculate(f, leader, leaderEquity, followerEquity, symbol).value;
      && t.notional == Product(Scale(f, leaderEquity, followerEquity), NotionalOf(leader))
      && t.side == SideOf(leader) && t.symbol == symbol
  {
    ScaledNotional(followerEquity, NotionalOf(leader), leaderEquity, OrZero(f.copyRatio));
    hide Product;
    assert leader.None? ==> Product(Scale(f, leaderEquity, followerEquity), 0.0) == 0.0 by {
      ZeroProduct(Scale(f, leaderEquity, followerEquity));
    }
  }

  lemma ZeroProduct(x: real)
    ensures Product(x, 0.0) == 0.0
  {}

  /** What a target asks for, and how far a settled position may be from it. */
  function Wanted(t: Target): real {
    if WantsFlat(t) then 0.0 else t.notional
  }

  function Drift(c: Settings, t: Target): real {
    if WantsFlat(t) then 0.0 else Tolerance(c, t.notional)
  }

  /** A position that classifies NOOP is flat if that is wanted, and otherwise on the target's side within the drift. */
  lemma SettledPosition(c: Settings, t: Target, position: Option<Position>)
    requires Classify(c, t, position) == Noop
    ensures WantsFlat(t) ==> position == None
    ensures !WantsFlat(t) ==> position.Some? && position.value.side == t.side
    ensures Abs(AbsNotionalOf(position) - Wanted(t)) <= Drift(c, t)
  {
    hide Tolerance;
  }

  /** The target of one symbol; a flat one stands in where the calculation fails. */
  function TargetOf(f: Follower, leaderEquity: real, followerEquity: real, copy: Copy): Target {
    match Calculate(f, copy.leader, leaderEquity, followerEquity, copy.symbol)
    case Ok(t) => t
    case Err(_) => Target(f.id, copy.symbol, Flat, 0.0, 0.0)
  }

  ghost function RunOf(c: Settings, f: Follower, leaderEquity: real, followerEquity: real, copy: Copy): Run {
    Reconcile(c, copy.env, TargetOf(f, leaderEquity, followerEquity, copy), copy.position, copy.cooldown)
  }

  /** Every symbol has a target and its run succeeded. */
  ghost predicate AllSucceed(c: Settings, f: Follower, leaderEquity: real, followerEquity: real, copies: seq<Copy>) {
    forall copy :: copy in copies ==>
      && Held(copy.leader) && GoodEntry(copy.cooldown)
      && Calculate(f, copy.leader, leaderEquity, followerEquity, copy.symbol).Ok?
      && RunOf(c, f, leaderEquity, followerEquity, copy).returned.Ok?
      && RunOf(c, f, leaderEquity, followerEquity, copy).returned.value.success
  }

  function LeaderTotal(copies: seq<Copy>): real {
    if copies == [] then 0.0 else NotionalOf(copies[0].leader) + LeaderTotal(copies[1..])
  }

  ghost function FollowerTotal(c: Settings, f: Follower, leaderEquity: real, followerEquity: real,
                               copies: seq<Copy>): real
  {
    if copies == [] then 0.0
    else
      AbsNotionalOf(RunOf(c, f, leaderEquity, followerEquity, copies[0]).position) +
      FollowerTotal(c, f, leaderEquity, followerEquity, copies[1..])
  }

  ghost function TotalDrift(c: Settings, f: Follower, leaderEquity: real, followerEquity: real,
                            copies: seq<Copy>): real
  {
    if copies == [] then 0.0
    else
      Drift(c, TargetOf(f, leaderEquity, followerEquity, copies[0])) +
      TotalDrift(c, f, leaderEquity, followerEquity, copies[1..])
  }

  /** One successful run leaves the follower within the drift of the scaled leader position, and on its side. */
  lemma RunTracks(c: Settings, f: Follower, leaderEquity: real, followerEquity: real, copy: Copy)
    requires f.copyMode == Ratio && leaderEquity > 0.0 && OrZero(f.copyRatio) >= 0.0 && c.maxRetries >= 0 && !c.dryRun
    requires AllSucceed(c, f, leaderEquity, followerEquity, [copy])
    ensures
      var t := TargetOf(f, leaderEquity, followerEquity, copy);
      var run := RunOf(c, f, leaderEquity, followerEquity, copy);
      && Abs(AbsNotionalOf(run.position) - Product(Scale(f, leaderEquity, followerEquity), NotionalOf(copy.leader)))
           <= Drift(c, t)
      && (run.position.Some? ==> run.position.value.side == SideOf(copy.leader))
      && (run.position.None? <==> t.notional == 0.0)
  {
    assert copy in [copy];
    var t := TargetOf(f, leaderEquity, followerEquity, copy);
    var run := RunOf(c, f, leaderEquity, followerEquity, copy);
    RatioTargetIsScaled(f, copy.leader, leaderEquity, followerEquity, copy.symbol);
    assert t.notional >= 0.0 by {
      ScaleIsNonNegative(f, leaderEquity, followerEquity, NotionalOf(copy.leader));
    }
    hide Reconcile, Product, Calculate, Classify, Drift;
    ReportIsTruthful(c, copy.env, t, copy.position, copy.cooldown);
    SettledPosition(c, t, run.position);
  }

  lemma ScaleIsNonNegative(f: Follower, leaderEquity: real, followerEquity: real, notional: real)
    requires leaderEquity > 0.0 && followerEquity >= 0.0 && OrZero(f.copyRatio) >= 0.0 && notional >= 0.0
    ensures Product(Scale(f, leaderEquity, followerEquity), notional) >= 0.0
  {
    assert followerEquity / leaderEquity >= 0.0;
    assert Scale(f, leaderEquity, followerEquity) >= 0.0;
  }

  /**
    When every symbol's run succeeds, the follower's total notional is within the sum of the drifts of
    followerEquity / leaderEquity * copyRatio times the leader's total.
  */
  lemma {:induction false} PortfolioTracks(c: Settings, f: Follower, leaderEquity: real, followerEquity: real,
                                           copies: seq<Copy>)
    requires f.copyMode == Ratio && leaderEquity > 0.0 && OrZero(f.copyRatio) >= 0.0 && c.maxRetries >= 0 && !c.dryRun
    requires AllSucceed(c, f, leaderEquity, followerEquity, copies)
    ensures
      Abs(FollowerTotal(c, f, leaderEquity, followerEquity, copies)
          - Product(Scale(f, leaderEquity, followerEquity), LeaderTotal(copies)))
        <= TotalDrift(c, f, leaderEquity, followerEquity, copies)
  {
    var scale := Scale(f, leaderEquity, followerEquity);
    hide TargetOf, Drift, Scale, Product, AbsNotionalOf, AllSucceed, RunOf;
    if copies == [] {
      ZeroProduct(scale);
    } else {
      SplitSuccess(c, f, leaderEquity, followerEquity, copies);
      RunTracks(c, f, leaderEquity, followerEquity, copies[0]);
      PortfolioTracks(c, f, leaderEquity, followerEquity, copies[1..]);
      ProductAdd(scale, NotionalOf(copies[0].leader), LeaderTotal(copies[1..]));
    }
  }

  lemma SplitSuccess(c: Settings, f: Follower, leaderEquity: real, followerEquity: real, copies: seq<Copy>)
    requires copies != [] && AllSucceed(c, f, leaderEquity, followerEquity, copies)
    ensures AllSucceed(c, f, leaderEquity, followerEquity, [copies[0]])
    ensures AllSucceed(c, f, leaderEquity, followerEquity, copies[1..])
  {
    hide RunOf, Calculate, Held, GoodEntry;
    assert copies[0] in copies;
  }

  lemma ProductAdd(x: real, y: real, z: real)
    ensures Product(x, y + z) == Product(x, y) + Product(x, z)
  {}
}
