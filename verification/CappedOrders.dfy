/**
  Opening, adding and reducing by more than one market order (perpmirror/execution/executor.py: execute_delta cuts an
  order down to the exchange's cap; perpmirror/copy/reconciler.py: the next attempt orders what is left).
*/
module CappedOrders {
  import opened Wrappers
  import opened Models
  import opened Exchange
  import opened Executor
  import opened Reconciler
  import opened Motion
  import opened RunSafety
  import opened RunResults
  import opened ChunkedClose
  import opened Convergence
  import opened Exits
  import Risk

  /** One opening, adding or reducing order that is sized for `lots` lots may carry `cap` of them; uncapped, all. */
  ghost predicate OrderLots(m: Market, cap: nat, lots: nat)
    requires m.Ready()
  {
    var i := m.instrument.value;
    cap > 0 && if Capped(i) then cap == i.Lots(i.maxQuantity.value) else lots <= cap
  }

  /** The gap is worth so many lots, and a rest of less than one. */
  ghost predicate Spans(m: Market, gap: real, lots: nat, rest: real)
    requires m.Ready()
  {
    gap == m.Worth(Times(lots, m.Step())) + rest && 0.0 <= rest < m.LotValue()
  }

  /** The drift tolerance takes in the rest and `slack` lots, and no lot more. */
  ghost predicate Absorbs(m: Market, tolerance: real, rest: real, slack: nat)
    requires m.Ready()
  {
    m.Worth(Times(slack, m.Step())) + rest <= tolerance < m.Worth(Times(slack + 1, m.Step())) + rest
  }

  /** An order for so many lots passes the exchange's minimums. */
  ghost predicate PassesMinimums(m: Market, lots: nat)
    requires m.Ready()
  {
    var i := m.instrument.value;
    Times(lots, m.Step()) >= i.minQuantity && m.Worth(Times(lots, m.Step())) >= i.minNotional
  }

  /** How many orders of at most `cap` lots it takes until at most `slack` of the lots are left. */
  function OrdersNeeded(lots: nat, cap: nat, slack: nat): nat
    requires cap > 0
  {
    if lots <= slack then 0 else 1 + OrdersNeeded(lots - Chunk(lots, cap), cap, slack)
  }

  /** ... that is the least number of full orders which leaves no more. */
  lemma {:induction false} OrdersNeededIsLeast(lots: nat, cap: nat, slack: nat, n: nat)
    requires cap > 0
    ensures OrdersNeeded(lots, cap, slack) <= n <==> lots <= n * cap + slack
  {
    if lots > slack {
      var part := Chunk(lots, cap);
      if n > 0 {
        OrdersNeededIsLeast(lots - part, cap, slack, n - 1);
        assert (n - 1) * cap == n * cap - cap;
        assert part < cap ==> n * cap >= cap;
      }
    }
  }

  // ----- One order -----

  lemma LotsAre(i: Instrument, quantity: real, lots: nat)
    requires i.quantityStep > 0.0
    requires Times(lots, i.quantityStep) <= quantity < Times(lots, i.quantityStep) + i.quantityStep
    ensures i.RoundDown(quantity) == Times(lots, i.quantityStep)
  {
    TimesMono(0, lots, i.quantityStep);
    ZeroTimes(i.quantityStep);
    LotsNonNegative(i, quantity);
    FloorIsGreatestMultiple(i, quantity, lots);
    TimesMono(lots + 1, i.Lots(quantity), i.quantityStep);
    OneMoreLot(lots, i.quantityStep);
    hide Times, Instrument.Lots;
  }

  lemma OneMoreLot(lots: nat, step: real)
    ensures Times(lots + 1, step) == Times(lots, step) + step
  {
    MulNext(lots as real, step);
  }

  /** The order for a gap is sized to its whole lots. */
  lemma GapInLots(m: Market, gap: real, lots: nat, rest: real)
    requires m.Ready() && Spans(m, gap, lots, rest)
    ensures gap >= 0.0 && m.instrument.value.QuantityForNotional(gap, m.price) == Ok(Times(lots, m.Step()))
  {
    var q := Times(lots, m.Step());
    TimesMono(0, lots, m.Step());
    ZeroTimes(m.Step());
    hide Product, Times, Instrument.RoundDown, Instrument.UnitValue;
    WorthLaws(m, 0.0, q);
    WorthLaws(m, q, m.Step());
    DivMul(gap, m.Unit());
    WorthLaws(m, q, gap / m.Unit());
    WorthLaws(m, gap / m.Unit(), q + m.Step());
    LotsAre(m.instrument.value, gap / m.Unit(), lots);
  }

  /** It carries the lots of the gap, or as many as the exchange takes. */
  lemma OrderInLots(m: Market, actual: Option<Position>, gap: real, lots: nat, rest: real, cap: nat, reduceOnly: bool)
    requires m.Ready() && Spans(m, gap, lots, rest) && lots > 0 && OrderLots(m, cap, lots)
    requires PassesMinimums(m, Chunk(lots, cap))
    requires reduceOnly ==> actual.Some? && gap <= m.Worth(actual.value.quantity)
    ensures DeltaQuantity(m.instrument.value, m.price, actual, gap, reduceOnly)
         == Ok(Times(Chunk(lots, cap), m.Step()))
  {
    var i, q, part := m.instrument.value, Times(lots, m.Step()), Times(Chunk(lots, cap), m.Step());
    GapInLots(m, gap, lots, rest);
    TimesLess(lots, Chunk(lots, cap), m.Step());
    TimesMono(cap, lots, m.Step());
    TimesMono(lots, cap, m.Step());
    if Capped(i) {
      LotsNonNegative(i, i.maxQuantity.value);
    }
    hide Product, Times, Instrument.RoundDown, Instrument.UnitValue, Instrument.QuantityForNotional, Instrument.Lots;
    WorthLaws(m, 0.0, part);
    if reduceOnly {
      WorthLaws(m, q, actual.value.quantity);
    }
  }

  /** One order of so many lots, filled completely, takes their worth off the gap and stays on the target's side. */
  ghost predicate TakesPart(m: Market, t: Target, before: Option<Position>, part: nat, submissions: seq<Submission>,
                            after: Option<Position>)
    requires m.Ready()
  {
    && |submissions| == 1
    && submissions[0].request.quantity == Times(part, m.Step()) && submissions[0].after == after
    && m.Booked(after) && after.Some? && after.value.side == t.side
    && Gap(m, t, after) == Gap(m, t, before) - m.Worth(Times(part, m.Step()))
  }

  lemma IncreaseTakesPart(m: Market, t: Target, position: Option<Position>, lots: nat, rest: real, cap: nat, id: nat,
                          response: Response)
    requires m.Ready() && m.Booked(position) && t.side != Flat
    requires position.Some? ==> position.value.side == t.side
    requires t.notional >= Along(m, t.side, position) && Spans(m, Gap(m, t, position), lots, rest)
    requires lots > 0 && OrderLots(m, cap, lots) && PassesMinimums(m, Chunk(lots, cap))
    requires response.Fill? && response.ratio == 1.0 && Acknowledges(response)
    ensures
      var effect := ExecuteDelta(false, m, m.instrument.value, t, position, position, Gap(m, t, position), false, id,
                                 response);
      effect.outcome.Ok? && TakesPart(m, t, position, Chunk(lots, cap), effect.submissions, effect.position)
  {
    var part := Chunk(lots, cap);
    var q := Times(part, m.Step());
    OrderInLots(m, position, Gap(m, t, position), lots, rest, cap, false);
    TimesLess(lots, part, m.Step());
    FullFill(m, part);
    SideMatchesValue(m, position);
    hide Product, Times, DeltaQuantity, FillOf, PassesMinimums, OrderLots;
    var signed := Signed(position) + (if t.side == Long then q else -q);
    BookFacts(m, signed);
    WorthLaws(m, Signed(position), q);
    WorthLaws(m, Signed(position), -q);
    WorthLaws(m, q, 0.0);
    WorthLaws(m, q, Times(lots, m.Step()));
  }

  lemma ReduceTakesPart(m: Market, t: Target, position: Position, lots: nat, rest: real, cap: nat, id: nat,
                        response: Response)
    requires m.Ready() && m.Booked(Some(position)) && position.side == t.side && t.notional > 0.0
    requires t.notional <= Along(m, t.side, Some(position)) && Spans(m, Gap(m, t, Some(position)), lots, rest)
    requires lots > 0 && OrderLots(m, cap, lots) && PassesMinimums(m, Chunk(lots, cap))
    requires response.Fill? && response.ratio == 1.0 && Acknowledges(response)
    ensures
      var p := Some(position);
      var effect := ExecuteDelta(false, m, m.instrument.value, t, p, p, Gap(m, t, p), true, id, response);
      effect.outcome.Ok? && TakesPart(m, t, p, Chunk(lots, cap), effect.submissions, effect.position)
  {
    var p, part := Some(position), Chunk(lots, cap);
    var q := Times(part, m.Step());
    SideMatchesValue(m, p);
    OrderInLots(m, p, Gap(m, t, p), lots, rest, cap, true);
    TimesLess(lots, part, m.Step());
    FullFill(m, part);
    hide Product, Times, DeltaQuantity, FillOf, PassesMinimums, OrderLots;
    WorthLaws(m, q, 0.0);
    WorthLaws(m, q, Times(lots, m.Step()));
    WorthLaws(m, q, position.quantity);
    WorthLaws(m, position.quantity, -q);
    WorthLaws(m, -position.quantity, q);
    var signed := if t.side == Long then position.quantity - q else q - position.quantity;
    BookFacts(m, signed);
  }

  // ----- Whole runs -----

  /**
    What the theorem asks of the surroundings of a run: complete fills, no risk rule in the way of the whole gap, and
    whatever is left of the gap above the tolerance, or one capped order's worth of it, passes the minimums.
  */
  ghost predicate Unhindered(c: Settings, e: Env, t: Target, rest: real, slack: nat, cap: nat, gap: real)
    requires e.market.Ready()
  {
    var m, tolerance := e.market, Tolerance(c, t.notional);
    && !c.dryRun && FillsEverything(e)
    && RiskClear(c, e, t, tolerance, gap)
    && Absorbs(m, tolerance, rest, slack)
    && PassesMinimums(m, slack + 1) && PassesMinimums(m, cap)
  }

  lemma LotsAboveSlack(m: Market, tolerance: real, gap: real, lots: nat, rest: real, slack: nat)
    requires m.Ready() && Spans(m, gap, lots, rest) && Absorbs(m, tolerance, rest, slack)
    ensures lots <= slack <==> gap <= tolerance
  {
    TimesMono(lots, slack, m.Step());
    TimesMono(slack + 1, lots, m.Step());
    hide Times, Product;
    WorthLaws(m, Times(lots, m.Step()), Times(slack, m.Step()));
    WorthLaws(m, Times(slack + 1, m.Step()), Times(lots, m.Step()));
  }

  lemma ChunkPasses(m: Market, lots: nat, cap: nat, slack: nat)
    requires m.Ready() && lots > slack && PassesMinimums(m, slack + 1) && PassesMinimums(m, cap)
    ensures PassesMinimums(m, Chunk(lots, cap))
  {
    TimesMono(slack + 1, lots, m.Step());
    hide Times, Product;
    WorthLaws(m, Times(slack + 1, m.Step()), Times(lots, m.Step()));
  }

  /** The part that was ordered is gone from the gap, the rest stays. */
  lemma FewerLots(m: Market, gap: real, next: real, lots: nat, rest: real, cap: nat)
    requires m.Ready() && Spans(m, gap, lots, rest) && OrderLots(m, cap, lots)
    requires next == gap - m.Worth(Times(Chunk(lots, cap), m.Step()))
    ensures Spans(m, next, lots - Chunk(lots, cap), rest) && OrderLots(m, cap, lots - Chunk(lots, cap))
    ensures next <= gap
  {
    var part := Chunk(lots, cap);
    TimesLess(lots, part, m.Step());
    hide Times, Product;
    WorthLaws(m, Times(lots - part, m.Step()), Times(part, m.Step()));
    WorthLaws(m, 0.0, Times(part, m.Step()));
  }

  lemma PartAction(c: Settings, e: Env, t: Target, position: Option<Position>, attempt: nat, n: nat, rest: real,
                   slack: nat, cap: nat, lots: nat, gap: real)
    requires e.market.Ready() && Unhindered(c, e, t, rest, slack, cap, gap)
    requires OnTheWay(c, e.market, t, position) && Gap(e.market, t, position) <= gap
    requires Spans(e.market, Gap(e.market, t, position), lots, rest) && OrderLots(e.market, cap, lots)
    requires Classify(c, t, position) in {Open, Add, Reduce}
    ensures lots > slack
    ensures
      var effect := DeltaAction(c, e, t, position, Classify(c, t, position), attempt, n);
      && effect.outcome.Orders?
      && TakesPart(e.market, t, position, Chunk(lots, cap), effect.submissions, effect.position)
  {
    hide Product, OrderLots, PassesMinimums, Spans, Absorbs, TakesPart, Tolerance, Market.Value, Risk.Check, Classify;
    hide Along, Gap, RiskClear;
    hide Market.Booked, Times;
    var m, tolerance, action := e.market, Tolerance(c, t.notional), Classify(c, t, position);
    var now := Gap(m, t, position);
    GapIsNotional(c, m, t, position);
    LotsAboveSlack(m, tolerance, now, lots, rest, slack);
    ChunkPasses(m, lots, cap, slack);
    var k := e.firstOrder + n;
    assert e.script(k).Fill? && e.script(k).ratio == 1.0 && Acknowledges(e.script(k));
    hide FillsEverything;
    RiskPasses(c, e, t, position, action, tolerance, gap, now, 2 * attempt);
    if action == Reduce {
      ReduceTakesPart(m, t, position.value, lots, rest, cap, k, e.script(k));
    } else {
      IncreaseTakesPart(m, t, position, lots, rest, cap, k, e.script(k));
    }
    hide ExecuteDelta;
  }

  /** The state after such an order. */
  ghost predicate TookPart(m: Market, t: Target, s: State, part: nat, next: State)
    requires m.Ready()
  {
    && next.cooldown == None
    && s.submissions <= next.submissions && |next.submissions| == |s.submissions| + 1
    && TakesPart(m, t, s.position, part, next.submissions[|s.submissions|..], next.position)
  }

  lemma PartAttempt(c: Settings, e: Env, t: Target, initial: Option<Position>, s: State, attempt: nat, rest: real,
                    slack: nat, cap: nat, lots: nat, gap: real)
    requires e.market.Ready() && Unhindered(c, e, t, rest, slack, cap, gap)
    requires OnTheWay(c, e.market, t, s.position) && Gap(e.market, t, s.position) <= gap
    requires Spans(e.market, Gap(e.market, t, s.position), lots, rest) && OrderLots(e.market, cap, lots)
    requires !Suppresses(c, s.cooldown, t, Classify(c, t, s.position), e.clock(attempt).checked)
    ensures
      match Attempt(c, e, t, initial, s, attempt)
      case Done(run) =>
        lots <= slack && run.submissions == s.submissions && run.returned.Ok? && run.returned.value.success
      case Continue(next) => lots > slack && TookPart(e.market, t, s, Chunk(lots, cap), next)
  {
    hide Product, OnTheWay, Suppresses, Tolerance, Classify, Gap, Market.Booked, ClassifyExecuted, AbsNotionalOf;
    hide Spans, OrderLots, TakesPart, RiskClear, FillsEverything, PassesMinimums, Absorbs;
    GapIsNotional(c, e.market, t, s.position);
    LotsAboveSlack(e.market, Tolerance(c, t.notional), Gap(e.market, t, s.position), lots, rest, slack);
    if Classify(c, t, s.position) != Noop {
      PartAction(c, e, t, s.position, attempt, |s.submissions|, rest, slack, cap, lots, gap);
      var more := DeltaAction(c, e, t, s.position, Classify(c, t, s.position), attempt, |s.submissions|).submissions;
      assert (s.submissions + more)[|s.submissions|..] == more;
    }
    assert !c.dryRun;
    hide Unhindered, DeltaAction;
  }

  /** The orders from index `from` on, which start at a gap of so many lots: each carries its share of what is left. */
  ghost predicate InParts(m: Market, t: Target, submissions: seq<Submission>, from: nat, gap: real, lots: nat, cap: nat)
    requires m.Ready()
    decreases |submissions| - from
  {
    from < |submissions| ==>
      var part := Chunk(lots, cap);
      var left := gap - m.Worth(Times(part, m.Step()));
      && submissions[from].request.quantity == Times(part, m.Step())
      && Gap(m, t, submissions[from].after) == left
      && InParts(m, t, submissions, from + 1, left, lots - part, cap)
  }

  lemma {:induction false} PartLoop(c: Settings, e: Env, t: Target, initial: Option<Position>, s: State, attempt: nat,
                                    rest: real, slack: nat, cap: nat, lots: nat, gap: real)
    requires e.market.Ready() && Unhindered(c, e, t, rest, slack, cap, gap)
    requires OnTheWay(c, e.market, t, s.position) && Gap(e.market, t, s.position) <= gap
    requires Spans(e.market, Gap(e.market, t, s.position), lots, rest) && OrderLots(e.market, cap, lots)
    requires !Suppresses(c, s.cooldown, t, Classify(c, t, s.position), e.clock(attempt).checked)
    requires attempt <= c.maxRetries + 1
    ensures
      var run := Loop(c, e, t, initial, s, attempt);
      var needed, allowed := OrdersNeeded(lots, cap, slack), c.maxRetries + 1 - attempt;
      && s.submissions <= run.submissions
      && |run.submissions| == |s.submissions| + LeastOf(needed, allowed)
      && InParts(e.market, t, run.submissions, |s.submissions|, Gap(e.market, t, s.position), lots, cap)
      && run.returned.Ok? && (run.returned.value.success <==> needed <= allowed)
    decreases c.maxRetries + 1 - attempt
  {
    hide Unhindered, Suppresses, Classify, Attempt, Gap, OnTheWay, Tolerance, Loop, Exhausted, Spans, OrderLots, Times;
    hide TookPart, Market.Worth;
    LoopGoesOn(c, e, t, initial, s, attempt);
    if attempt > c.maxRetries {
      NoAttemptLeft(c, e, t, initial, s, rest, slack, cap, lots, gap);
    } else {
      PartAttempt(c, e, t, initial, s, attempt, rest, slack, cap, lots, gap);
      match Attempt(c, e, t, initial, s, attempt)
      case Done(run) => LoopOnce(c, e, t, initial, s, attempt);
      case Continue(next) =>
        var part := Chunk(lots, cap);
        OnWithLess(c, e.market, t, s, next, lots, rest, cap, e.clock(attempt + 1).checked);
        PartLoop(c, e, t, initial, next, attempt + 1, rest, slack, cap, lots - part, gap);
    }
  }

  lemma NoAttemptLeft(c: Settings, e: Env, t: Target, initial: Option<Position>, s: State, rest: real, slack: nat,
                      cap: nat, lots: nat, gap: real)
    requires e.market.Ready() && Unhindered(c, e, t, rest, slack, cap, gap)
    requires OnTheWay(c, e.market, t, s.position) && Spans(e.market, Gap(e.market, t, s.position), lots, rest)
    ensures
      var run := Exhausted(c, t, initial, s);
      && run.submissions == s.submissions && run.returned.Ok?
      && (run.returned.value.success <==> lots <= slack)
  {
    hide OnTheWay, Gap, Tolerance, Classify, ClassifyExecuted, AbsNotionalOf, Spans, Absorbs;
    GapIsNotional(c, e.market, t, s.position);
    LotsAboveSlack(e.market, Tolerance(c, t.notional), Gap(e.market, t, s.position), lots, rest, slack);
  }

  lemma OnWithLess(c: Settings, m: Market, t: Target, s: State, next: State, lots: nat, rest: real, cap: nat, now: real)
    requires m.Ready() && OnTheWay(c, m, t, s.position) && Spans(m, Gap(m, t, s.position), lots, rest)
    requires OrderLots(m, cap, lots) && TookPart(m, t, s, Chunk(lots, cap), next)
    ensures
      var part := Chunk(lots, cap);
      var left := Gap(m, t, s.position) - m.Worth(Times(part, m.Step()));
      && s.submissions <= next.submissions && |next.submissions| == |s.submissions| + 1
      && next.submissions[|s.submissions|].request.quantity == Times(part, m.Step())
      && next.submissions[|s.submissions|].after == next.position && Gap(m, t, next.position) == left
      && left <= Gap(m, t, s.position)
      && OnTheWay(c, m, t, next.position)
      && Spans(m, left, lots - part, rest) && OrderLots(m, cap, lots - part)
      && !Suppresses(c, next.cooldown, t, Classify(c, t, next.position), now)
  {
    hide Gap, Classify, SameFailureTarget, Spans, OrderLots, Times, Market.Worth, Market.Booked, Tolerance;
    FewerLots(m, Gap(m, t, s.position), Gap(m, t, next.position), lots, rest, cap);
  }

  /**
    Orders above the exchange's cap. With complete fills and no rule in the way, opening, adding or reducing by a gap
    of `lots` lots and a rest submits exactly as many orders as it takes to come within the drift tolerance, or as
    the attempts allow. Each carries the cap or what is left, and the run succeeds exactly if the attempts suffice.
  */
  lemma CappedOrdersAreExact(c: Settings, e: Env, t: Target, position: Option<Position>,
                             cooldown: Option<FailureCooldown>, rest: real, slack: nat, cap: nat, lots: nat)
    requires e.market.Ready() && c.maxRetries >= 0
    requires OnTheWay(c, e.market, t, position)
    requires Spans(e.market, Gap(e.market, t, position), lots, rest) && OrderLots(e.market, cap, lots)
    requires Unhindered(c, e, t, rest, slack, cap, Gap(e.market, t, position))
    requires !Suppresses(c, cooldown, t, Classify(c, t, position), e.clock(0).checked)
    ensures
      var run := Reconcile(c, e, t, position, cooldown);
      var needed := OrdersNeeded(lots, cap, slack);
      && |run.submissions| == LeastOf(needed, c.maxRetries + 1)
      && InParts(e.market, t, run.submissions, 0, Gap(e.market, t, position), lots, cap)
      && run.returned.Ok? && (run.returned.value.success <==> needed <= c.maxRetries + 1)
  {
    hide Loop, Unhindered, OnTheWay, Gap, Classify, Suppresses, Spans, OrderLots, InParts;
    PartLoop(c, e, t, position, State(position, [], [], cooldown), 0, rest, slack, cap, lots,
             Gap(e.market, t, position));
  }

  // ----- Flips -----

  /** The opening order of a flip carries its part of the new side. */
  lemma NewSideTakesPart(c: Settings, e: Env, t: Target, position: Position, closed: Effect, n: nat, rest: real,
                         slack: nat, cap: nat, lots: nat)
    requires e.market.Ready() && OnTheWay(c, e.market, t, None)
    requires Spans(e.market, Gap(e.market, t, None), lots, rest) && OrderLots(e.market, cap, lots)
    requires Unhindered(c, e, t, rest, slack, cap, Gap(e.market, t, None))
    requires closed.outcome.Ok? && closed.position.None?
    ensures lots > slack
    ensures
      var effect := OpenAfterClose(c, e, t, position, closed, 0, n);
      && effect.outcome.Orders? && closed.submissions <= effect.submissions
      && TakesPart(e.market, t, None, Chunk(lots, cap), effect.submissions[|closed.submissions|..], effect.position)
  {
    var m, tolerance, gap := e.market, Tolerance(c, t.notional), Gap(e.market, t, None);
    var k := e.firstOrder + n + |closed.submissions|;
    assert e.script(k).Fill? && e.script(k).ratio == 1.0 && Acknowledges(e.script(k));
    SideMatchesValue(m, None);
    assert gap == t.notional;
    hide FillsEverything, Product, OrderLots, PassesMinimums, Spans, Absorbs, TakesPart, Tolerance, Market.Value;
    hide Along, Gap, Market.Booked, Times;
    LotsAboveSlack(m, tolerance, gap, lots, rest, slack);
    ChunkPasses(m, lots, cap, slack);
    RiskPasses(c, e, t, None, Open, tolerance, gap, gap, 1);
    IncreaseTakesPart(m, t, None, lots, rest, cap, k, e.script(k));
    var second := ExecuteDelta(false, m, m.instrument.value, t, None, None, t.notional, false, k, e.script(k));
    assert (closed.submissions + second.submissions)[|closed.submissions|..] == second.submissions;
    hide ExecuteDelta, RiskClear, Risk.Check;
  }

  /** The orders of a flip that can close its old side: the closing order and the first opening one. */
  lemma FlipOrders(c: Settings, e: Env, t: Target, position: Position, rest: real, slack: nat, cap: nat, lots: nat)
    requires e.market.Ready() && e.market.Booked(Some(position)) && Flippable(e.market, position, 1.0)
    requires OnTheWay(c, e.market, t, None)
    requires Spans(e.market, Gap(e.market, t, None), lots, rest) && OrderLots(e.market, cap, lots)
    requires Unhindered(c, e, t, rest, slack, cap, Gap(e.market, t, None))
    ensures lots > slack && !c.dryRun
    ensures
      var effect := FlipAction(c, e, t, Some(position), 0, 0);
      && effect.outcome.Orders? && |effect.submissions| == 2
      && TakesPart(e.market, t, None, Chunk(lots, cap), effect.submissions[1..], effect.position)
  {
    var k := e.firstOrder;
    assert e.script(k).Fill? && e.script(k).ratio == 1.0 && Acknowledges(e.script(k));
    assert !c.dryRun && !c.risk.killSwitch;
    hide FillsEverything, RiskClear, Absorbs, PassesMinimums, OnTheWay, Gap, Flippable, OrderLots, Spans;
    FlipClosesExactly(e.market, t, position, k, e.script(k), 1.0);
    var closed := ExecuteClose(false, e.market, t, position, Some(position), k, e.script(k));
    NewSideTakesPart(c, e, t, position, closed, 0, rest, slack, cap, lots);
    assert |OpenAfterClose(c, e, t, position, closed, 0, 0).submissions| == 2;
    hide ExecuteClose, OpenAfterClose, Unhindered, Risk.TotalNotional, Market.Booked, Position.AbsNotional, TakesPart;
  }

  /** The first attempt of such a flip. */
  lemma FlipAttempt(c: Settings, e: Env, t: Target, position: Position, cooldown: Option<FailureCooldown>, rest: real,
                    slack: nat, cap: nat, lots: nat)
    returns (next: State)
    requires e.market.Ready() && e.market.Booked(Some(position)) && Flippable(e.market, position, 1.0)
    requires Classify(c, t, Some(position)) == Flip && OnTheWay(c, e.market, t, None)
    requires Spans(e.market, Gap(e.market, t, None), lots, rest) && OrderLots(e.market, cap, lots)
    requires Unhindered(c, e, t, rest, slack, cap, Gap(e.market, t, None))
    ensures Attempt(c, e, t, Some(position), State(Some(position), [], [], cooldown), 0) == Continue(next)
    ensures lots > slack && |next.submissions| == 2 && next.cooldown == None
    ensures TakesPart(e.market, t, None, Chunk(lots, cap), next.submissions[1..], next.position)
  {
    hide Classify, FlipAction, Unhindered, Market.Booked, OnTheWay, Gap, Flippable, OrderLots, Spans, TakesPart;
    FlipOrders(c, e, t, position, rest, slack, cap, lots);
    var effect := FlipAction(c, e, t, Some(position), 0, 0);
    assert [] + effect.submissions == effect.submissions;
    next := Attempt(c, e, t, Some(position), State(Some(position), [], [], cooldown), 0).state;
  }

  /**
    A flip closes its old side with one order, or fails; then it opens the new side as above, the first opening order
    within the same attempt.
  */
  lemma CappedFlipIsExact(c: Settings, e: Env, t: Target, position: Position, cooldown: Option<FailureCooldown>,
                          rest: real, slack: nat, cap: nat, lots: nat)
    requires e.market.Ready() && e.market.Booked(Some(position)) && c.maxRetries >= 0
    requires Classify(c, t, Some(position)) == Flip && OnTheWay(c, e.market, t, None)
    requires Spans(e.market, Gap(e.market, t, None), lots, rest) && OrderLots(e.market, cap, lots)
    requires Unhindered(c, e, t, rest, slack, cap, Gap(e.market, t, None))
    ensures
      var run := Reconcile(c, e, t, Some(position), cooldown);
      var needed := OrdersNeeded(lots, cap, slack);
      if Flippable(e.market, position, 1.0) then
        && |run.submissions| == 1 + LeastOf(needed, c.maxRetries + 1)
        && run.returned.Ok? && (run.returned.value.success <==> needed <= c.maxRetries + 1)
      else |run.submissions| <= 1 && !(run.returned.Ok? && run.returned.value.success)
  {
    assert !c.dryRun;
    hide Unhindered, OnTheWay, Gap, Classify, Spans, OrderLots, Loop, Aligned, FitsOneOrder, Market.Booked;
    hide OrdersNeeded, LeastOf;
    if Flippable(e.market, position, 1.0) {
      CappedFlipOpens(c, e, t, position, cooldown, rest, slack, cap, lots);
    } else {
      UnfinishedFlipFails(c, e, t, position, cooldown);
    }
  }

  lemma CappedFlipOpens(c: Settings, e: Env, t: Target, position: Position, cooldown: Option<FailureCooldown>,
                        rest: real, slack: nat, cap: nat, lots: nat)
    requires e.market.Ready() && e.market.Booked(Some(position)) && Flippable(e.market, position, 1.0)
    requires c.maxRetries >= 0
    requires Classify(c, t, Some(position)) == Flip && OnTheWay(c, e.market, t, None)
    requires Spans(e.market, Gap(e.market, t, None), lots, rest) && OrderLots(e.market, cap, lots)
    requires Unhindered(c, e, t, rest, slack, cap, Gap(e.market, t, None))
    ensures
      var run := Reconcile(c, e, t, Some(position), cooldown);
      var needed := OrdersNeeded(lots, cap, slack);
      && |run.submissions| == 1 + LeastOf(needed, c.maxRetries + 1)
      && run.returned.Ok? && (run.returned.value.success <==> needed <= c.maxRetries + 1)
  {
    hide Unhindered, OnTheWay, Gap, Classify, Spans, OrderLots, Attempt, Loop, Flippable, Market.Booked, TakesPart;
    hide OrdersNeeded, LeastOf;
    var next := FlipAttempt(c, e, t, position, cooldown, rest, slack, cap, lots);
    NewSideLoop(c, e, t, State(Some(position), [], [], cooldown), next, rest, slack, cap, lots);
  }

  /** The attempts after the one that closed the old side. */
  lemma NewSideLoop(c: Settings, e: Env, t: Target, s: State, next: State, rest: real, slack: nat, cap: nat, lots: nat)
    requires e.market.Ready() && c.maxRetries >= 0 && OnTheWay(c, e.market, t, None)
    requires Spans(e.market, Gap(e.market, t, None), lots, rest) && OrderLots(e.market, cap, lots)
    requires Unhindered(c, e, t, rest, slack, cap, Gap(e.market, t, None))
    requires Attempt(c, e, t, s.position, s, 0) == Continue(next)
    requires lots > slack && |next.submissions| == 2 && next.cooldown == None
    requires TakesPart(e.market, t, None, Chunk(lots, cap), next.submissions[1..], next.position)
    ensures cap > 0
    ensures
      var run := Loop(c, e, t, s.position, s, 0);
      var needed := OrdersNeeded(lots, cap, slack);
      && |run.submissions| == 1 + LeastOf(needed, c.maxRetries + 1)
      && run.returned.Ok? && (run.returned.value.success <==> needed <= c.maxRetries + 1)
  {
    hide Unhindered, OnTheWay, Gap, Classify, Suppresses, Spans, Attempt, Times, Market.Worth, Loop, TakesPart;
    hide OrdersNeeded, LeastOf, Market.Ready, Market.LotValue, Exhausted;
    LoopGoesOn(c, e, t, s.position, s, 0);
    OneOrderLess(lots, cap, slack, c.maxRetries);
    NewSideRest(c, e, t, s.position, next, rest, slack, cap, lots);
  }

  lemma NewSideRest(c: Settings, e: Env, t: Target, initial: Option<Position>, next: State, rest: real, slack: nat,
                    cap: nat, lots: nat)
    requires e.market.Ready() && c.maxRetries >= 0 && OnTheWay(c, e.market, t, None)
    requires Spans(e.market, Gap(e.market, t, None), lots, rest) && OrderLots(e.market, cap, lots)
    requires Unhindered(c, e, t, rest, slack, cap, Gap(e.market, t, None))
    requires |next.submissions| == 2 && next.cooldown == None
    requires TakesPart(e.market, t, None, Chunk(lots, cap), next.submissions[1..], next.position)
    ensures
      var run := Loop(c, e, t, initial, next, 1);
      var needed := OrdersNeeded(lots - Chunk(lots, cap), cap, slack);
      && |run.submissions| == 2 + LeastOf(needed, c.maxRetries)
      && run.returned.Ok? && (run.returned.value.success <==> needed <= c.maxRetries)
  {
    hide Unhindered, OnTheWay, Gap, Classify, Suppresses, Spans, Attempt, Times, Market.Worth, Loop, InParts, TakesPart;
    hide OrdersNeeded, LeastOf, OrderLots, Market.LotValue;
    NewSideOnTheWay(c, e.market, t, next, lots, rest, cap, e.clock(1).checked);
    PartLoop(c, e, t, initial, next, 1, rest, slack, cap, lots - Chunk(lots, cap), Gap(e.market, t, None));
  }

  lemma NewSideOnTheWay(c: Settings, m: Market, t: Target, next: State, lots: nat, rest: real, cap: nat, now: real)
    requires m.Ready() && OnTheWay(c, m, t, None) && Spans(m, Gap(m, t, None), lots, rest) && OrderLots(m, cap, lots)
    requires |next.submissions| == 2 && next.cooldown == None
    requires TakesPart(m, t, None, Chunk(lots, cap), next.submissions[1..], next.position)
    ensures OnTheWay(c, m, t, next.position) && Gap(m, t, next.position) <= Gap(m, t, None)
    ensures Spans(m, Gap(m, t, next.position), lots - Chunk(lots, cap), rest)
    ensures OrderLots(m, cap, lots - Chunk(lots, cap))
    ensures !Suppresses(c, next.cooldown, t, Classify(c, t, next.position), now)
  {
    hide Gap, Classify, SameFailureTarget, Spans, OrderLots, Times, Market.Worth, Market.Booked, Tolerance;
    FewerLots(m, Gap(m, t, None), Gap(m, t, next.position), lots, rest, cap);
  }

  lemma OneOrderLess(lots: nat, cap: nat, slack: nat, retries: nat)
    requires cap > 0 && lots > slack
    ensures
      var needed, rest := OrdersNeeded(lots, cap, slack), OrdersNeeded(lots - Chunk(lots, cap), cap, slack);
      && 1 + LeastOf(needed, retries + 1) == 2 + LeastOf(rest, retries)
      && (needed <= retries + 1 <==> rest <= retries)
  {}
}
