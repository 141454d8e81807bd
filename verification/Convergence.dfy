/**
  How fast partial fills converge: with every order filled to the ratio `r` (and floored to lots), the gap to
  the target shrinks geometrically down to (1 + r) / r lots.
*/
module Convergence {
  import opened Wrappers
  import opened Models
  import opened Exchange
  import opened Executor
  import opened Reconciler
  import opened Motion
  import opened RunSafety
  import opened RunResults
  import opened RiskOff
  import Risk
  import ChunkedClose
  import Cooldown

  /** Every order fills to the same ratio and is acknowledged, at once or by the lookup. */
  ghost predicate FillsPart(e: Env, r: real) {
    forall k: nat :: e.script(k).Fill? && e.script(k).ratio == r && Acknowledges(e.script(k))
  }

  /** The fake exchange, in each of its settings, is one of the exchanges the theorems are about. */
  lemma FakeIsCovered(e: Env, r: FillRatio, rejectOrders: bool, timeoutAfterFill: bool)
    requires e.script == FakeScript(r, rejectOrders, timeoutAfterFill)
    ensures
      if rejectOrders then Cooldown.Rejecting(e) else FillsPart(e, r) && (r == 1.0 ==> ChunkedClose.FillsEverything(e))
  {}

  /** How much is left to the target. */
  function Gap(m: Market, t: Target, position: Option<Position>): real
    requires m.Ready()
  {
    Abs(t.notional - Along(m, t.side, position))
  }

  // ----- The bound -----

  function NextBound(r: real, lot: real, gap: real): real {
    Product(1.0 - r, gap) + (1.0 + r) * lot
  }

  /** The gap left after `n` orders is at most this. */
  function Bound(r: real, lot: real, gap: real, n: nat): real
    decreases n
  {
    if n == 0 then gap else Bound(r, lot, NextBound(r, lot, gap), n - 1)
  }

  /** The gap that partial fills cannot be relied on to get under: (1 + r) / r lots. */
  function RestingGap(r: real, lot: real): real
    requires r > 0.0
  {
    (1.0 + r) / r * lot
  }

  function Power(x: real, n: nat): real
    decreases n
  {
    if n == 0 then 1.0 else Product(Power(x, n - 1), x)
  }

  lemma {:induction false} BoundMono(r: real, lot: real, gap: real, larger: real, n: nat)
    requires 0.0 < r <= 1.0 && gap <= larger
    ensures Bound(r, lot, gap, n) <= Bound(r, lot, larger, n)
    decreases n
  {
    if n > 0 {
      assert Product(1.0 - r, gap) <= Product(1.0 - r, larger);
      hide Product;
      BoundMono(r, lot, NextBound(r, lot, gap), NextBound(r, lot, larger), n - 1);
    }
  }

  /** The bound in closed form: its distance from (1 + r) / r lots shrinks by the factor 1 - r per order. */
  lemma {:induction false} BoundIsGeometric(r: real, lot: real, gap: real, n: nat)
    requires 0.0 < r <= 1.0
    ensures
      var floor := RestingGap(r, lot);
      Bound(r, lot, gap, n) - floor == Product(Power(1.0 - r, n), gap - floor)
    decreases n
  {
    var floor := RestingGap(r, lot);
    if n == 0 {
      assert Product(1.0, gap - floor) == gap - floor;
    } else {
      var next := NextBound(r, lot, gap);
      BoundIsGeometric(r, lot, next, n - 1);
      hide RestingGap;
      FloorIsFixpoint(r, lot, gap);
      MulAssoc(Power(1.0 - r, n - 1), 1.0 - r, gap - floor);
      hide Product;
    }
  }

  lemma MulAssoc(x: real, y: real, z: real)
    ensures Product(Product(x, y), z) == Product(x, Product(y, z))
  {}

  lemma FloorIsFixpoint(r: real, lot: real, gap: real)
    requires 0.0 < r
    ensures
      var floor := RestingGap(r, lot);
      NextBound(r, lot, gap) - floor == Product(1.0 - r, gap - floor)
  {
    var c := (1.0 + r) / r;
    assert c * r == 1.0 + r;
    var floor := c * lot;
    assert floor * r == (1.0 + r) * lot by {
      assert c * lot * r == c * r * lot;
    }
    assert (1.0 - r) * (gap - floor) == (1.0 - r) * gap - floor + floor * r;
  }

  // ----- One order -----

  /** The tolerance leaves room for a lot per unit of fill ratio and for the minimums. */
  ghost predicate Roomy(m: Market, tolerance: real, r: real)
    requires m.Ready() && r > 0.0
  {
    && tolerance >= m.LotValue() / r + m.LotValue()
    && tolerance >= m.Worth(m.instrument.value.minQuantity) + m.LotValue()
    && tolerance >= m.instrument.value.minNotional + m.LotValue()
  }

  /** No market order of this size is cut down by the exchange's cap. */
  ghost predicate CapAllows(m: Market, notional: real)
    requires m.Ready()
  {
    var i := m.instrument.value;
    Capped(i) ==> notional <= m.Worth(i.RoundDown(i.maxQuantity.value))
  }

  /** An order for a gap above the tolerance is sized to within a lot of the gap and passes every minimum. */
  lemma GapIsSized(m: Market, actual: Option<Position>, gap: real, tolerance: real, r: real, reduceOnly: bool)
    returns (q: real)
    requires m.Ready() && m.Booked(actual) && 0.0 < r <= 1.0
    requires Roomy(m, tolerance, r) && gap > tolerance && CapAllows(m, gap)
    requires reduceOnly ==> actual.Some? && gap <= m.Worth(actual.value.quantity)
    ensures DeltaQuantity(m.instrument.value, m.price, actual, gap, reduceOnly) == Ok(q)
    ensures q > 0.0 && gap - m.LotValue() < m.Worth(q) <= gap
  {
    hide Product, Instrument.RoundDown, Instrument.UnitValue;
    var i := m.instrument.value;
    var raw := gap / m.Unit();
    assert m.LotValue() / r > 0.0;
    DivMul(gap, m.Unit());
    q := i.RoundDown(raw);
    MulMono(q, raw, m.Unit());
    MulMono(raw, q + m.Step(), m.Unit());
    MulAdd(q, m.Step(), m.Unit());
    WorthLaws(m, 0.0, q);
    WorthLaws(m, q, 0.0);
    WorthLaws(m, i.minQuantity, q);
    if Capped(i) {
      WorthLaws(m, q, i.RoundDown(i.maxQuantity.value));
    }
    if reduceOnly {
      WorthLaws(m, q, actual.value.quantity);
    }
  }

  /** Such an order fills at least one lot, and what is left of the gap is within the next bound. */
  lemma PartOfGapFills(m: Market, q: real, gap: real, tolerance: real, r: FillRatio)
    requires m.Ready() && 0.0 < r
    requires Roomy(m, tolerance, r) && gap > tolerance
    requires q > 0.0 && gap - m.LotValue() < m.Worth(q) <= gap
    ensures
      var f := FillOf(m.instrument.value, q, r);
      0.0 < f <= q && 0.0 <= gap - m.Worth(f) <= NextBound(r, m.LotValue(), gap)
  {
    var i, f, lot := m.instrument.value, FillOf(m.instrument.value, q, r), m.LotValue();
    var part := q * r;
    ScaleDown(q, r);
    assert f == i.RoundDown(part) && part == Product(q, r);
    SplitShare(r, gap, lot);
    hide Product, FillOf, Instrument.RoundDown;
    PartWorth(m, q, r);
    ShareOfGap(r, m.Worth(q), gap, tolerance, lot);
    WorthLaws(m, m.Step(), part);
    TimesOne(m.Step());
    FloorIsGreatestMultiple(i, part, 1);
    WorthLaws(m, f, m.Step());
    WorthLaws(m, part, f + m.Step());
    WorthLaws(m, f, q);
  }

  lemma PartWorth(m: Market, q: real, r: real)
    requires m.Ready()
    ensures m.Worth(Product(q, r)) == Product(m.Worth(q), r)
  {
    var u := m.Unit();
    assert (q * r) * u == (q * u) * r;
  }

  lemma SplitShare(r: real, gap: real, lot: real)
    ensures NextBound(r, lot, gap) == gap + lot - Product(gap - lot, r)
  {
    assert (1.0 - r) * gap + (1.0 + r) * lot == gap + lot - (gap - lot) * r;
  }

  lemma TimesOne(step: real)
    ensures Times(1, step) == step
  {}

  lemma ShareOfGap(r: real, sized: real, gap: real, tolerance: real, lot: real)
    requires 0.0 < r && gap - lot < sized && tolerance < gap && lot / r + lot <= tolerance
    ensures Product(sized, r) >= Product(gap - lot, r) >= lot
  {
    hide Product;
    MulMono(gap - lot, sized, r);
    DivMul(lot, r);
    MulMono(lot / r, gap - lot, r);
  }

  /** One increasing order takes the gap under the next bound. */
  lemma IncreaseConverges(m: Market, t: Target, position: Option<Position>, tolerance: real, r: FillRatio, id: nat,
                          response: Response)
    requires m.Ready() && m.Booked(position) && 0.0 < r && t.side != Flat
    requires position.Some? ==> position.value.side == t.side
    requires
      var gap := t.notional - Along(m, t.side, position);
      Roomy(m, tolerance, r) && gap > tolerance && CapAllows(m, gap)
    requires response.Fill? && response.ratio == r && Acknowledges(response)
    ensures
      var gap := t.notional - Along(m, t.side, position);
      var effect := ExecuteDelta(false, m, m.instrument.value, t, position, position, gap, false, id, response);
      && effect.outcome.Ok? && |effect.submissions| == 1 && effect.submissions[0].after == effect.position
      && effect.submissions[0].fill != 0.0
      && m.Booked(effect.position) && effect.position.Some? && effect.position.value.side == t.side
      && Gap(m, t, effect.position) <= NextBound(r, m.LotValue(), gap) && Gap(m, t, effect.position) <= gap
  {
    var gap := t.notional - Along(m, t.side, position);
    var q := GapIsSized(m, position, gap, tolerance, r, false);
    PartOfGapFills(m, q, gap, tolerance, r);
    SideMatchesValue(m, position);
    hide Product, DeltaQuantity, FillOf, NextBound, Roomy, CapAllows;
    var f := FillOf(m.instrument.value, q, r);
    var signed := Signed(position) + (if t.side == Long then f else -f);
    BookFacts(m, signed);
    WorthLaws(m, Signed(position), f);
    WorthLaws(m, Signed(position), -f);
    WorthLaws(m, f, 0.0);
  }

  /** One reducing order takes the gap under the next bound. */
  lemma ReduceConverges(m: Market, t: Target, position: Position, tolerance: real, r: FillRatio, id: nat,
                        response: Response)
    requires m.Ready() && m.Booked(Some(position)) && 0.0 < r && position.side == t.side && t.notional > 0.0
    requires
      var gap := Along(m, t.side, Some(position)) - t.notional;
      Roomy(m, tolerance, r) && gap > tolerance && CapAllows(m, gap)
    requires response.Fill? && response.ratio == r && Acknowledges(response)
    ensures
      var p := Some(position);
      var gap := Along(m, t.side, p) - t.notional;
      var effect := ExecuteDelta(false, m, m.instrument.value, t, p, p, gap, true, id, response);
      && effect.outcome.Ok? && |effect.submissions| == 1 && effect.submissions[0].after == effect.position
      && effect.submissions[0].fill != 0.0
      && m.Booked(effect.position) && effect.position.Some? && effect.position.value.side == t.side
      && Gap(m, t, effect.position) <= NextBound(r, m.LotValue(), gap) && Gap(m, t, effect.position) <= gap
  {
    var p := Some(position);
    var gap := Along(m, t.side, p) - t.notional;
    SideMatchesValue(m, p);
    var q := GapIsSized(m, p, gap, tolerance, r, true);
    PartOfGapFills(m, q, gap, tolerance, r);
    hide Product, DeltaQuantity, FillOf, NextBound, Roomy, CapAllows;
    var f := FillOf(m.instrument.value, q, r);
    WorthLaws(m, f, position.quantity);
    WorthLaws(m, position.quantity, -f);
    WorthLaws(m, -position.quantity, f);
    WorthLaws(m, f, 0.0);
    var signed := if t.side == Long then position.quantity - f else f - position.quantity;
    BookFacts(m, signed);
  }

  // ----- Whole runs -----

  /** The risk check lets the run through, whatever other symbols do while it is under way. */
  ghost predicate RiskClear(c: Settings, e: Env, t: Target, tolerance: real, gap: real) {
    && !c.risk.killSwitch
    && (t.side == Short ==> c.risk.allowShort)
    && (c.risk.symbolAllowlist != {} ==> t.symbol in c.risk.symbolAllowlist)
    && t.symbol !in c.risk.symbolBlocklist
    && t.leverage <= c.risk.maxLeverage
    && t.notional <= c.risk.maxSingleSymbolNotional
    && gap <= c.risk.maxOrderNotional
    && c.risk.minOrderNotional <= tolerance
    && forall k: nat ::
         var others := e.others(k) - {t.symbol};
         Risk.TotalNotional(others) + t.notional <= c.risk.maxTotalNotional && |others| < c.risk.maxOpenSymbols
  }

  lemma RiskPasses(c: Settings, e: Env, t: Target, position: Option<Position>, action: Action, tolerance: real,
                   gap: real, now: real, k: nat)
    requires RiskClear(c, e, t, tolerance, gap) && action in {Open, Add, Reduce}
    requires tolerance <= now <= gap
    ensures Risk.Check(c.risk, t, position, e.Portfolio(k, t.symbol, position), action, now).Allowed?
  {
    Risk.PortfolioTotal(e.others(k), t.symbol, position);
    var others := e.others(k) - {t.symbol};
    assert Risk.TotalNotional(others) + t.notional <= c.risk.maxTotalNotional;
    hide Risk.TotalNotional, AbsNotionalOf;
  }

  /** On the target's side; or flat, with a target that is more than drift (a flat account always opens). */
  ghost predicate OnTheWay(c: Settings, m: Market, t: Target, position: Option<Position>)
    requires m.Ready()
  {
    && m.Booked(position) && !WantsFlat(t)
    && (position.Some? ==> position.value.side == t.side)
    && (position.None? ==> t.notional > Tolerance(c, t.notional))
  }

  /** What the theorem asks of the surroundings of a run whose gap never exceeds `gap`. */
  ghost predicate Favourable(c: Settings, e: Env, t: Target, r: FillRatio, gap: real)
    requires e.market.Ready() && r > 0.0
  {
    var tolerance := Tolerance(c, t.notional);
    && !c.dryRun
    && FillsPart(e, r)
    && Roomy(e.market, tolerance, r)
    && CapAllows(e.market, gap)
    && RiskClear(c, e, t, tolerance, gap)
  }

  /** One order that fills and takes the gap from `now` under the next bound. */
  ghost predicate Shrank(c: Settings, m: Market, t: Target, r: FillRatio, now: real, effect: ActionEffect)
    requires m.Ready()
  {
    && effect.outcome.Orders? && |effect.submissions| == 1
    && effect.submissions[0].after == effect.position && effect.submissions[0].fill != 0.0
    && OnTheWay(c, m, t, effect.position)
    && Gap(m, t, effect.position) <= NextBound(r, m.LotValue(), now)
    && Gap(m, t, effect.position) <= now
  }

  lemma GapIsNotional(c: Settings, m: Market, t: Target, position: Option<Position>)
    requires m.Ready() && OnTheWay(c, m, t, position)
    ensures
      var action := Classify(c, t, position);
      var gap := Gap(m, t, position);
      && action in {Noop, Open, Add, Reduce}
      && (action == Noop <==> gap <= Tolerance(c, t.notional))
      && (action != Noop ==> OrderNotional(t, position) == gap)
      && (action in {Open, Add} ==> gap == t.notional - Along(m, t.side, position) && gap >= 0.0)
      && (action == Reduce ==> gap == Along(m, t.side, position) - t.notional && position.Some? && gap >= 0.0)
  {
    ClassifyMeans(c, m, t, position);
    hide Product, Tolerance, Market.Value;
  }

  lemma ActionConverges(c: Settings, e: Env, t: Target, position: Option<Position>, attempt: nat, n: nat, r: FillRatio,
                        gap: real)
    requires e.market.Ready() && 0.0 < r && Favourable(c, e, t, r, gap)
    requires OnTheWay(c, e.market, t, position) && Gap(e.market, t, position) <= gap
    requires Classify(c, t, position) in {Open, Add, Reduce}
    ensures Shrank(c, e.market, t, r, Gap(e.market, t, position),
                   DeltaAction(c, e, t, position, Classify(c, t, position), attempt, n))
  {
    hide Product, NextBound, Roomy, CapAllows, Tolerance, Market.Value, Risk.Check, Classify, Along, Gap, RiskClear;
    hide Market.Booked;
    var m, tolerance, action := e.market, Tolerance(c, t.notional), Classify(c, t, position);
    var now := Gap(m, t, position);
    GapIsNotional(c, m, t, position);
    var k := e.firstOrder + n;
    assert e.script(k).Fill? && e.script(k).ratio == r && Acknowledges(e.script(k));
    hide FillsPart;
    RiskPasses(c, e, t, position, action, tolerance, gap, now, 2 * attempt);
    CapAllowsLess(m, now, gap);
    if action == Reduce {
      ReduceConverges(m, t, position.value, tolerance, r, k, e.script(k));
    } else {
      IncreaseConverges(m, t, position, tolerance, r, k, e.script(k));
    }
    hide ExecuteDelta;
  }

  /** The state after such an order. */
  ghost predicate Advanced(c: Settings, m: Market, t: Target, r: real, s: State, next: State)
    requires m.Ready()
  {
    && next.cooldown == None
    && s.submissions <= next.submissions && |next.submissions| == |s.submissions| + 1
    && next.submissions[|s.submissions|].fill != 0.0 && next.submissions[|s.submissions|].after == next.position
    && OnTheWay(c, m, t, next.position)
    && Gap(m, t, next.position) <= NextBound(r, m.LotValue(), Gap(m, t, s.position))
    && Gap(m, t, next.position) <= Gap(m, t, s.position)
  }

  /** One attempt either finds the gap within the tolerance or submits one order that shrinks it. */
  lemma AttemptConverges(c: Settings, e: Env, t: Target, initial: Option<Position>, s: State, attempt: nat,
                         r: FillRatio, gap: real)
    requires e.market.Ready() && 0.0 < r && Favourable(c, e, t, r, gap)
    requires OnTheWay(c, e.market, t, s.position) && Gap(e.market, t, s.position) <= gap
    requires !Suppresses(c, s.cooldown, t, Classify(c, t, s.position), e.clock(attempt).checked)
    ensures
      var now := Gap(e.market, t, s.position);
      match Attempt(c, e, t, initial, s, attempt)
      case Done(run) =>
        && now <= Tolerance(c, t.notional) && run.submissions == s.submissions
        && run.returned.Ok? && run.returned.value.success
      case Continue(next) => Advanced(c, e.market, t, r, s, next)
  {
    hide Product, OnTheWay, NextBound, Suppresses, Tolerance, Classify, Gap, Market.Booked, ClassifyExecuted;
    hide AbsNotionalOf;
    GapIsNotional(c, e.market, t, s.position);
    if Classify(c, t, s.position) != Noop {
      ActionConverges(c, e, t, s.position, attempt, |s.submissions|, r, gap);
    }
    assert !c.dryRun;
    hide Favourable, DeltaAction;
  }

  lemma CapAllowsLess(m: Market, less: real, more: real)
    requires m.Ready() && less <= more && CapAllows(m, more)
    ensures CapAllows(m, less)
  {}

  /** After each of the orders from index `from` on, the gap is within the bound for that many orders. */
  ghost predicate Converging(m: Market, t: Target, r: real, gap: real, submissions: seq<Submission>, from: nat)
    requires m.Ready()
  {
    forall k :: from <= k < |submissions| ==>
      submissions[k].fill != 0.0 && Gap(m, t, submissions[k].after) <= Bound(r, m.LotValue(), gap, k - from + 1)
  }

  lemma ConvergingStep(m: Market, t: Target, r: real, now: real, next: real, submissions: seq<Submission>, from: nat)
    requires m.Ready() && 0.0 < r <= 1.0 && next <= NextBound(r, m.LotValue(), now)
    requires from < |submissions| && submissions[from].fill != 0.0 && Gap(m, t, submissions[from].after) == next
    requires Converging(m, t, r, next, submissions, from + 1)
    ensures Converging(m, t, r, now, submissions, from)
  {
    hide Gap, NextBound;
    forall k | from <= k < |submissions|
      ensures submissions[k].fill != 0.0 && Gap(m, t, submissions[k].after) <= Bound(r, m.LotValue(), now, k - from + 1)
    {
      BoundMono(r, m.LotValue(), next, NextBound(r, m.LotValue(), now), k - from);
      assert Bound(r, m.LotValue(), now, k - from + 1) == Bound(r, m.LotValue(), NextBound(r, m.LotValue(), now),
                                                                k - from);
      if k == from {
        assert Bound(r, m.LotValue(), next, 0) == next;
      } else {
        assert k - from == k - (from + 1) + 1;
      }
    }
  }

  lemma BoundNext(r: real, lot: real, gap: real, n: nat)
    ensures Bound(r, lot, gap, 0) == gap
    ensures Bound(r, lot, gap, n + 1) == Bound(r, lot, NextBound(r, lot, gap), n)
  {}

  /** The rest of a run converges, and succeeds if that many more attempts suffice. */
  ghost predicate Converges(c: Settings, m: Market, t: Target, r: real, s: State, run: Run, allowed: nat)
    requires m.Ready()
  {
    && s.submissions <= run.submissions
    && Converging(m, t, r, Gap(m, t, s.position), run.submissions, |s.submissions|)
    && (Bound(r, m.LotValue(), Gap(m, t, s.position), allowed) <= Tolerance(c, t.notional) ==>
          run.returned.Ok? && run.returned.value.success)
  }

  lemma ConvergesOn(c: Settings, m: Market, t: Target, r: real, s: State, next: State, run: Run, allowed: nat)
    requires m.Ready() && 0.0 < r <= 1.0 && Advanced(c, m, t, r, s, next)
    requires Converges(c, m, t, r, next, run, allowed)
    ensures Converges(c, m, t, r, s, run, allowed + 1)
  {
    hide Gap, NextBound, Bound, Converging, OnTheWay, Tolerance;
    var now, then_ := Gap(m, t, s.position), Gap(m, t, next.position);
    ConvergingStep(m, t, r, now, then_, run.submissions, |s.submissions|);
    BoundNext(r, m.LotValue(), now, allowed);
    BoundMono(r, m.LotValue(), then_, NextBound(r, m.LotValue(), now), allowed);
  }

  /** A run that submits nothing more has converged if the gap is within the tolerance. */
  lemma StopsConverging(c: Settings, m: Market, t: Target, r: real, s: State, run: Run, allowed: nat)
    requires m.Ready() && run.submissions == s.submissions && run.returned.Ok?
    requires run.returned.value.success || (allowed == 0 && Gap(m, t, s.position) > Tolerance(c, t.notional))
    ensures Converges(c, m, t, r, s, run, allowed)
  {
    hide Gap, NextBound, Tolerance;
    BoundNext(r, m.LotValue(), Gap(m, t, s.position), 0);
  }

  lemma ExhaustedConverges(c: Settings, m: Market, t: Target, r: real, initial: Option<Position>, s: State)
    requires m.Ready() && OnTheWay(c, m, t, s.position)
    ensures Converges(c, m, t, r, s, Exhausted(c, t, initial, s), 0)
  {
    hide OnTheWay, Gap, Tolerance, Classify, ClassifyExecuted, AbsNotionalOf, Converges;
    GapIsNotional(c, m, t, s.position);
    StopsConverging(c, m, t, r, s, Exhausted(c, t, initial, s), 0);
  }

  lemma {:induction false} LoopConverges(c: Settings, e: Env, t: Target, initial: Option<Position>, s: State,
                                         attempt: nat, r: FillRatio, gap: real)
    requires e.market.Ready() && 0.0 < r && Favourable(c, e, t, r, gap)
    requires OnTheWay(c, e.market, t, s.position) && Gap(e.market, t, s.position) <= gap
    requires attempt <= c.maxRetries + 1
    requires !Suppresses(c, s.cooldown, t, Classify(c, t, s.position), e.clock(attempt).checked)
    ensures Converges(c, e.market, t, r, s, Loop(c, e, t, initial, s, attempt), c.maxRetries + 1 - attempt)
    decreases c.maxRetries + 1 - attempt
  {
    hide Favourable, Suppresses, Classify, Attempt, Gap, OnTheWay, Tolerance, Advanced, Loop, Exhausted, Converges;
    hide Market.LotValue;
    LoopGoesOn(c, e, t, initial, s, attempt);
    if attempt > c.maxRetries {
      ExhaustedConverges(c, e.market, t, r, initial, s);
    } else {
      AttemptConverges(c, e, t, initial, s, attempt, r, gap);
      match Attempt(c, e, t, initial, s, attempt)
      case Done(run) =>
        LoopOnce(c, e, t, initial, s, attempt);
        StopsConverging(c, e.market, t, r, s, run, c.maxRetries + 1 - attempt);
      case Continue(next) =>
        StillConverging(c, e.market, t, r, s, next, e.clock(attempt + 1).checked);
        LoopConverges(c, e, t, initial, next, attempt + 1, r, gap);
        ConvergesOn(c, e.market, t, r, s, next, Loop(c, e, t, initial, next, attempt + 1), c.maxRetries - attempt);
    }
  }

  lemma StillConverging(c: Settings, m: Market, t: Target, r: real, s: State, next: State, now: real)
    requires m.Ready() && Advanced(c, m, t, r, s, next)
    ensures OnTheWay(c, m, t, next.position) && Gap(m, t, next.position) <= Gap(m, t, s.position)
    ensures !Suppresses(c, next.cooldown, t, Classify(c, t, next.position), now)
  {
    hide OnTheWay, Gap, NextBound, Classify, SameFailureTarget;
  }

  /**
    Geometric convergence. With fill ratio `r`, after the n-th order (counting from one) the gap exceeds
    (1 + r) / r lots by at most (1 - r)^n of its first excess; no order fills zero; and the run succeeds
    whenever that bound is within the drift tolerance for as many orders as there are attempts.
  */
  lemma PartialFillsConverge(c: Settings, e: Env, t: Target, position: Option<Position>,
                             cooldown: Option<FailureCooldown>, r: FillRatio)
    requires e.market.Ready() && 0.0 < r && c.maxRetries >= 0
    requires OnTheWay(c, e.market, t, position) && Favourable(c, e, t, r, Gap(e.market, t, position))
    requires !Suppresses(c, cooldown, t, Classify(c, t, position), e.clock(0).checked)
    ensures
      var run := Reconcile(c, e, t, position, cooldown);
      var gap := Gap(e.market, t, position);
      var floor := RestingGap(r, e.market.LotValue());
      && (forall k :: 0 <= k < |run.submissions| ==>
            && run.submissions[k].fill != 0.0
            && Gap(e.market, t, run.submissions[k].after) - floor <= Product(Power(1.0 - r, k + 1), gap - floor))
      && (floor + Product(Power(1.0 - r, c.maxRetries + 1), gap - floor) <= Tolerance(c, t.notional) ==>
            run.returned.Ok? && run.returned.value.success)
  {
    hide Loop, Favourable, Suppresses, Classify, Gap, OnTheWay, Product, Tolerance, Bound, Power, RestingGap;
    var run := Reconcile(c, e, t, position, cooldown);
    var gap := Gap(e.market, t, position);
    LoopConverges(c, e, t, position, State(position, [], [], cooldown), 0, r, gap);
    forall k | 0 <= k < |run.submissions|
      ensures
        && run.submissions[k].fill != 0.0
        && Gap(e.market, t, run.submissions[k].after) <= Bound(r, e.market.LotValue(), gap, k + 1)
        && Bound(r, e.market.LotValue(), gap, k + 1) - RestingGap(r, e.market.LotValue())
             == Product(Power(1.0 - r, k + 1), gap - RestingGap(r, e.market.LotValue()))
    {
      BoundIsGeometric(r, e.market.LotValue(), gap, k + 1);
    }
    BoundIsGeometric(r, e.market.LotValue(), gap, c.maxRetries + 1);
  }
}
