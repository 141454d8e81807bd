/**
  When a run can close or turn a position (perpmirror/copy/reconciler.py, perpmirror/execution/executor.py).
  A closing order that fills short of the position never ends flat, so both need complete fills.
*/
module Exits {
  import opened Wrappers
  import opened Models
  import opened Exchange
  import opened Executor
  import opened Reconciler
  import opened Motion
  import opened RunSafety
  import opened RunResults
  import opened RiskOff
  import opened ChunkedClose
  import opened Convergence
  import Risk

  /** No order fills completely. */
  ghost predicate NeverFills(e: Env) {
    forall k: nat :: e.script(k).Fill? ==> e.script(k).ratio < 1.0
  }

  /** The exchange takes the whole position in one order. */
  predicate FitsOneOrder(m: Market, quantity: real)
    requires m.Ready()
  {
    Limits(m) ==> quantity <= m.instrument.value.RoundDown(m.instrument.value.maxQuantity.value)
  }

  lemma NotAll(i: Instrument, quantity: real, ratio: FillRatio)
    requires i.quantityStep > 0.0 && quantity > 0.0 && ratio < 1.0
    ensures FillOf(i, quantity, ratio) < quantity
  {
    assert quantity * ratio < quantity;
    ScaleDown(quantity, ratio);
  }

  /**
    A reduce-only order leaves part of the position open if it fills short, is smaller, or the position is no whole
    number of lots.
  */
  lemma LeavesPart(m: Market, position: Position, req: OrderRequest, response: Response)
    requires m.Ready() && m.Booked(Some(position))
    requires req.reduceOnly && req.side == ReducingSide(position.side) && 0.0 < req.quantity <= position.quantity
    requires
      || (response.Fill? ==> response.ratio < 1.0)
      || req.quantity < position.quantity
      || !Aligned(m.Step(), position.quantity)
    ensures
      var after := Submit(m, Some(position), req, response).position;
      && after.Some? && m.Booked(after) && after.value.side == position.side
      && (!Aligned(m.Step(), position.quantity) ==> !Aligned(m.Step(), after.value.quantity))
  {
    if response.Fill? {
      var filled := FillOf(m.instrument.value, req.quantity, response.ratio);
      if response.ratio < 1.0 {
        NotAll(m.instrument.value, req.quantity, response.ratio);
      }
      hide FillOf, Product;
      if filled > 0.0 {
        var signed := Signed(Some(position)) + (if req.side == Buy then filled else -filled);
        BookFacts(m, signed);
        if Aligned(m.Step(), position.quantity - filled) {
          AlignedSum(m.Step(), position.quantity - filled, filled);
        }
      }
    }
  }

  /** So does a closing order. */
  lemma CloseLeavesPart(m: Market, t: Target, position: Position, id: nat, response: Response)
    requires m.Ready() && m.Booked(Some(position))
    requires
      || (response.Fill? ==> response.ratio < 1.0)
      || !FitsOneOrder(m, position.quantity)
      || !Aligned(m.Step(), position.quantity)
    ensures
      var after := ExecuteClose(false, m, t, position, Some(position), id, response).position;
      && after.Some? && m.Booked(after) && after.value.side == position.side
      && (!Aligned(m.Step(), position.quantity) ==> !Aligned(m.Step(), after.value.quantity))
  {
    var quantity := CloseQuantity(m.instrument, position.quantity);
    if quantity.Ok? {
      if Capped(m.instrument.value) {
        CapIsPositive(m);
      }
      hide Instrument.RoundDown, Instrument.Lots;
      LeavesPart(m, position, CloseRequest(t, position, quantity.value, id), response);
    }
    hide Submit, CloseQuantity;
  }

  lemma CapIsPositive(m: Market)
    requires m.Ready() && Capped(m.instrument.value)
    ensures Limits(m) <==> m.instrument.value.RoundDown(m.instrument.value.maxQuantity.value) > 0.0
  {
    var i := m.instrument.value;
    LotsNonNegative(i, i.maxQuantity.value);
    TimesMono(0, i.Lots(i.maxQuantity.value), m.Step());
    ZeroTimes(m.Step());
  }

  // ----- Closing -----

  /** An open position that no closing order of this run can end. */
  ghost predicate Stuck(c: Settings, e: Env, position: Option<Position>)
    requires e.market.Ready()
  {
    && position.Some? && e.market.Booked(position)
    && (Frozen(c) || NeverFills(e) || !Aligned(e.market.Step(), position.value.quantity))
  }

  lemma ActionStaysStuck(c: Settings, e: Env, t: Target, position: Option<Position>, attempt: nat, n: nat)
    requires e.market.Ready() && WantsFlat(t) && !c.dryRun && Stuck(c, e, position)
    ensures Stuck(c, e, ExecuteAction(c, e, t, position, attempt, n).position)
    ensures Frozen(c) ==> !ExecuteAction(c, e, t, position, attempt, n).outcome.Orders?
  {
    var k := e.firstOrder + n;
    assert NeverFills(e) ==> (e.script(k).Fill? ==> e.script(k).ratio < 1.0);
    hide ExecuteClose, Risk.TotalNotional, Market.Booked, NeverFills, Position.AbsNotional;
    if !Frozen(c) {
      CloseLeavesPart(e.market, t, position.value, k, e.script(k));
    }
  }

  lemma AttemptStaysStuck(c: Settings, e: Env, t: Target, initial: Option<Position>, s: State, attempt: nat)
    requires e.market.Ready() && WantsFlat(t) && !c.dryRun && Stuck(c, e, s.position)
    ensures
      match Attempt(c, e, t, initial, s, attempt)
      case Done(run) => !(run.returned.Ok? && run.returned.value.success) && run.position.Some?
      case Continue(next) => Stuck(c, e, next.position)
  {
    assert Classify(c, t, s.position) == Close;
    ActionStaysStuck(c, e, t, s.position, attempt, |s.submissions|);
    ActionReports(c, e, t, s.position, attempt, |s.submissions|);
    hide ExecuteAction, NeverFills, Market.Booked, ClassifyExecuted, Error.IsPerpMirrorError, StartCooldown, Classify;
    hide AbsNotionalOf;
  }

  lemma {:induction false} LoopStaysStuck(c: Settings, e: Env, t: Target, initial: Option<Position>, s: State,
                                          attempt: nat)
    requires e.market.Ready() && WantsFlat(t) && !c.dryRun && Stuck(c, e, s.position)
    ensures
      var run := Loop(c, e, t, initial, s, attempt);
      !(run.returned.Ok? && run.returned.value.success) && run.position.Some?
    decreases c.maxRetries + 1 - attempt
  {
    hide Attempt, NeverFills, Market.Booked, ClassifyExecuted, AbsNotionalOf;
    if attempt <= c.maxRetries {
      AttemptStaysStuck(c, e, t, initial, s, attempt);
      hide Stuck, WantsFlat;
      match Attempt(c, e, t, initial, s, attempt)
      case Done(_) =>
      case Continue(next) => LoopStaysStuck(c, e, t, initial, next, attempt + 1);
    }
  }

  /**
    Without a single complete fill, an open position that is to be closed stays open and the run does not
    report success, however many retries it has and however small the rest becomes.
  */
  lemma PartialFillsNeverClose(c: Settings, e: Env, t: Target, position: Option<Position>,
                               cooldown: Option<FailureCooldown>)
    requires e.market.Ready() && e.market.Booked(position) && WantsFlat(t) && !c.dryRun
    requires position.Some? && NeverFills(e)
    ensures
      var run := Reconcile(c, e, t, position, cooldown);
      !(run.returned.Ok? && run.returned.value.success) && run.position.Some?
  {
    hide Loop, NeverFills, Market.Booked;
    LoopStaysStuck(c, e, t, position, State(position, [], [], cooldown), 0);
  }

  /** A run on a position that classifies NOOP succeeds as it stands. */
  lemma SettledLoop(c: Settings, e: Env, t: Target, initial: Option<Position>, s: State, attempt: nat)
    requires Classify(c, t, s.position) == Noop
    ensures
      var run := Loop(c, e, t, initial, s, attempt);
      && run.returned.Ok? && run.returned.value.success
      && run.position == s.position && run.submissions == s.submissions
  {
    hide Classify, ClassifyExecuted, AbsNotionalOf;
    assert !Suppresses(c, s.cooldown, t, Noop, e.clock(attempt).checked);
    if attempt <= c.maxRetries {
      LoopOnce(c, e, t, initial, s, attempt);
    }
  }

  lemma NoAttemptNoClose(c: Settings, e: Env, t: Target, s: State, lots: nat, cap: nat)
    requires c.maxRetries < 0 && s.position.Some? && WantsFlat(t) && lots > 0 && cap > 0
    ensures
      var run := Loop(c, e, t, s.position, s, 0);
      !(run.returned.Ok? && run.returned.value.success)
    ensures ChunksNeeded(lots, cap) > c.maxRetries + 1
  {
    assert ChunksNeeded(lots, cap) >= 1;
  }

  /** The whole lots of a position. */
  function LotsOf(m: Market, position: Option<Position>): int
    requires m.Ready()
  {
    if position.Some? then m.instrument.value.Lots(position.value.quantity) else 0
  }

  lemma WholeLots(m: Market, position: Option<Position>)
    requires m.Ready() && m.Booked(position)
    ensures 0 <= LotsOf(m, position)
    ensures position.Some? && Aligned(m.Step(), position.value.quantity) ==>
      LotsOf(m, position) > 0 && Holds(m, position.value.side, LotsOf(m, position), position)
  {
    ZeroTimes(m.Step());
    if position.Some? {
      LotsNonNegative(m.instrument.value, position.value.quantity);
      if Aligned(m.Step(), position.value.quantity) {
        var k :| IsLots(m.Step(), position.value.quantity, k);
        TimesMono(k, 0, m.Step());
        FloorKeepsLots(m.instrument.value, position.value.quantity, k);
      }
    }
    hide Times, Instrument.Lots, Product;
  }

  /** How many lots one closing order may carry. */
  ghost function OrderCap(m: Market, position: Option<Position>): (cap: nat)
    requires m.Ready() && m.Booked(position)
    ensures cap > 0 && 0 <= LotsOf(m, position) && CapLots(m, cap, LotsOf(m, position))
  {
    WholeLots(m, position);
    if Limits(m) then m.instrument.value.Lots(m.instrument.value.maxQuantity.value)
    else LotsOf(m, position) + 1
  }

  /**
    Nothing to close, or everything can be: whole lots, complete fills, enough retries, and no kill switch in the
    way.
  */
  ghost predicate Closable(c: Settings, m: Market, position: Option<Position>, r: real)
    requires m.Ready() && m.Booked(position)
  {
    var cap := OrderCap(m, position);
    position.Some? ==>
      && !Frozen(c) && r == 1.0 && Aligned(m.Step(), position.value.quantity)
      && ChunksNeeded(LotsOf(m, position), cap) <= c.maxRetries + 1
  }

  /** With every order filled to the same ratio, a close succeeds if and only if all of that holds. */
  lemma CloseSucceedsExactly(c: Settings, e: Env, t: Target, position: Option<Position>,
                             cooldown: Option<FailureCooldown>, r: FillRatio)
    requires e.market.Ready() && e.market.Booked(position) && WantsFlat(t) && !c.dryRun && FillsPart(e, r)
    ensures
      var run := Reconcile(c, e, t, position, cooldown);
      run.returned.Ok? && run.returned.value.success <==> Closable(c, e.market, position, r)
  {
    hide Loop, Market.Booked, CapLots, Holds, FillsPart, FillsEverything, NeverFills, OrderCap;
    var s := State(position, [], [], cooldown);
    var cap := OrderCap(e.market, position);
    WholeLots(e.market, position);
    FillsAlike(e, r);
    if position.None? {
      SettledLoop(c, e, t, position, s, 0);
    } else if Frozen(c) || r < 1.0 || !Aligned(e.market.Step(), position.value.quantity) {
      LoopStaysStuck(c, e, t, position, s, 0);
    } else if c.maxRetries < 0 {
      NoAttemptNoClose(c, e, t, s, LotsOf(e.market, position), cap);
    } else {
      ChunkedCloseIsExact(c, e, t, position, cooldown, position.value.side, LotsOf(e.market, position), cap);
    }
  }

  lemma FillsAlike(e: Env, r: FillRatio)
    requires FillsPart(e, r)
    ensures r < 1.0 ==> NeverFills(e)
    ensures r == 1.0 ==> FillsEverything(e)
  {}

  // ----- Flipping -----

  /**
    The closing order of a flip ends flat only if it fills completely and carries the whole of a position in whole
    lots.
  */
  ghost predicate Flippable(m: Market, position: Position, r: real)
    requires m.Ready()
  {
    r == 1.0 && Aligned(m.Step(), position.quantity) && FitsOneOrder(m, position.quantity)
  }

  lemma FlipClosesExactly(m: Market, t: Target, position: Position, id: nat, response: Response, r: FillRatio)
    requires m.Ready() && m.Booked(Some(position))
    requires response.Fill? && response.ratio == r && Acknowledges(response)
    ensures
      var closed := ExecuteClose(false, m, t, position, Some(position), id, response);
      && (closed.position.None? <==> Flippable(m, position, r))
      && (closed.position.None? ==> closed.outcome.Ok? && |closed.submissions| == 1)
  {
    hide ExecuteClose, Market.Booked;
    if Flippable(m, position, r) {
      WholeLots(m, Some(position));
      var lots := LotsOf(m, Some(position));
      var cap := OneOrderCap(m, position, lots);
      ClosingOrder(m, t, position, lots, cap, id, response);
      hide Holds;
      NoLotsNoPosition(m, position.side, lots - Chunk(lots, cap),
                       ExecuteClose(false, m, t, position, Some(position), id, response).position);
    } else {
      CloseLeavesPart(m, t, position, id, response);
    }
  }

  lemma OneOrderCap(m: Market, position: Position, lots: nat) returns (cap: nat)
    requires m.Ready() && FitsOneOrder(m, position.quantity)
    requires lots > 0 && position.quantity == Times(lots, m.Step())
    ensures CapLots(m, cap, lots) && Chunk(lots, cap) == lots
  {
    cap := lots;
    if Limits(m) {
      var i := m.instrument.value;
      cap := i.Lots(i.maxQuantity.value);
      LotsNonNegative(i, i.maxQuantity.value);
      TimesMono(cap, lots, m.Step());
    }
    hide Times, Instrument.Lots;
  }

  lemma NoLotsNoPosition(m: Market, side: PositionSide, lots: nat, position: Option<Position>)
    requires m.Ready() && Holds(m, side, lots, position)
    ensures position.None? <==> lots == 0
  {
    hide Market.Booked;
  }

  /** An order that leaves part of the position ends a flip on the old side, with at most that order and no success. */
  lemma UnfinishedFlipFails(c: Settings, e: Env, t: Target, position: Position, cooldown: Option<FailureCooldown>)
    requires e.market.Ready() && e.market.Booked(Some(position)) && !c.dryRun
    requires Classify(c, t, Some(position)) == Flip
    requires
      || Frozen(c) || NeverFills(e)
      || !FitsOneOrder(e.market, position.quantity) || !Aligned(e.market.Step(), position.quantity)
    ensures
      var run := Reconcile(c, e, t, Some(position), cooldown);
      && !(run.returned.Ok? && run.returned.value.success)
      && run.position.Some? && run.position.value.side == position.side && |run.submissions| <= 1
  {
    var s := State(Some(position), [], [], cooldown);
    UnfinishedFlipStops(c, e, t, position, 0, 0);
    ActionReports(c, e, t, Some(position), 0, 0);
    assert Classify(c, t, s.position) != Noop;
    hide ExecuteAction, NeverFills, FitsOneOrder, Market.Booked, ClassifyExecuted, Error.IsPerpMirrorError;
    hide StartCooldown, Classify;
    hide AbsNotionalOf, Aligned;
    if c.maxRetries >= 0 {
      LoopOnce(c, e, t, s.position, s, 0);
    }
  }

  lemma UnfinishedFlipStops(c: Settings, e: Env, t: Target, position: Position, attempt: nat, n: nat)
    requires e.market.Ready() && e.market.Booked(Some(position)) && !c.dryRun
    requires
      || Frozen(c) || NeverFills(e)
      || !FitsOneOrder(e.market, position.quantity) || !Aligned(e.market.Step(), position.quantity)
    ensures
      var effect := FlipAction(c, e, t, Some(position), attempt, n);
      && !effect.outcome.Orders? && |effect.submissions| <= 1
      && effect.position.Some? && effect.position.value.side == position.side
  {
    var k := e.firstOrder + n;
    assert NeverFills(e) ==> (e.script(k).Fill? ==> e.script(k).ratio < 1.0);
    OneOrderAtMost(e.market, t, position, k, e.script(k));
    if Frozen(c) {
      hide ExecuteClose, OpenAfterClose, Market.Booked, NeverFills, Position.AbsNotional, FitsOneOrder, Aligned;
      hide Risk.TotalNotional;
    } else {
      hide ExecuteClose, Market.Booked, NeverFills, Position.AbsNotional, FitsOneOrder, Aligned, Risk.Check;
      hide BlockedResult;
      CloseLeavesPart(e.market, t, position, k, e.script(k));
      OnlyFromFlat(c, e, t, position, ExecuteClose(false, e.market, t, position, Some(position), k, e.script(k)),
                   attempt, n);
      hide OpenAfterClose;
    }
  }

  lemma OnlyFromFlat(c: Settings, e: Env, t: Target, position: Position, closed: Effect, attempt: nat, n: nat)
    requires closed.position.Some?
    ensures closed.outcome.Ok? ==>
      var effect := OpenAfterClose(c, e, t, position, closed, attempt, n);
      !effect.outcome.Orders? && effect.position == closed.position && effect.submissions == closed.submissions
  {
    hide Risk.Check, ExecuteDelta;
  }

  lemma OneOrderAtMost(m: Market, t: Target, position: Position, id: nat, response: Response)
    ensures |ExecuteClose(false, m, t, position, Some(position), id, response).submissions| <= 1
  {
    hide Place, CloseQuantity, CloseRequest;
  }

  /** From a flat position, one complete fill is within the tolerance. */
  lemma NewSideSettles(c: Settings, e: Env, t: Target, position: Position, closed: Effect, n: nat)
    requires e.market.Ready() && OnTheWay(c, e.market, t, None) && Favourable(c, e, t, 1.0, t.notional)
    requires closed.outcome.Ok? && closed.position.None?
    ensures
      var effect := OpenAfterClose(c, e, t, position, closed, 0, n);
      effect.outcome.Orders? && Classify(c, t, effect.position) == Noop
  {
    var m, tolerance := e.market, Tolerance(c, t.notional);
    var k := e.firstOrder + n + |closed.submissions|;
    assert e.script(k).Fill? && e.script(k).ratio == 1.0 && Acknowledges(e.script(k));
    hide FillsPart;
    SideMatchesValue(m, None);
    RiskPasses(c, e, t, None, Open, tolerance, t.notional, t.notional, 1);
    IncreaseConverges(m, t, None, tolerance, 1.0, k, e.script(k));
    var second := ExecuteDelta(false, m, m.instrument.value, t, None, None, t.notional, false, k, e.script(k));
    TwoLots(m.LotValue(), t.notional);
    GapIsNotional(c, m, t, second.position);
    hide ExecuteDelta, Classify, Tolerance, RiskClear, Risk.Check, Gap, Market.Booked, NextBound, Market.LotValue;
    hide CapAllows, WantsFlat;
    hide Along, Product, Roomy;
  }

  lemma TwoLots(lot: real, gap: real)
    ensures NextBound(1.0, lot, gap) == lot + lot == lot / 1.0 + lot
  {}

  /**
    A flip under conditions in which an opening converges: it succeeds if and only if every order fills
    completely and the old side is whole lots that fit into one order. So a position above the exchange's
    limit is never flipped in one run.
  */
  lemma FlipSucceedsExactly(c: Settings, e: Env, t: Target, position: Position, cooldown: Option<FailureCooldown>,
                            r: FillRatio)
    requires e.market.Ready() && e.market.Booked(Some(position)) && 0.0 < r && c.maxRetries >= 0
    requires Classify(c, t, Some(position)) == Flip
    requires OnTheWay(c, e.market, t, None) && Favourable(c, e, t, r, t.notional)
    ensures
      var run := Reconcile(c, e, t, Some(position), cooldown);
      run.returned.Ok? && run.returned.value.success <==> Flippable(e.market, position, r)
  {
    FillsAlike(e, r);
    if Flippable(e.market, position, r) {
      FlipGoesOn(c, e, t, position, cooldown);
      hide Attempt, Classify, Favourable, OnTheWay;
      var s := State(Some(position), [], [], cooldown);
      LoopGoesOn(c, e, t, s.position, s, 0);
      SettledLoop(c, e, t, s.position, Attempt(c, e, t, s.position, s, 0).state, 1);
    } else {
      hide Reconcile, Classify, FillsPart;
      UnfinishedFlipFails(c, e, t, position, cooldown);
    }
  }

  lemma FlipGoesOn(c: Settings, e: Env, t: Target, position: Position, cooldown: Option<FailureCooldown>)
    requires e.market.Ready() && e.market.Booked(Some(position)) && Flippable(e.market, position, 1.0)
    requires Classify(c, t, Some(position)) == Flip
    requires OnTheWay(c, e.market, t, None) && Favourable(c, e, t, 1.0, t.notional)
    ensures
      var progress := Attempt(c, e, t, Some(position), State(Some(position), [], [], cooldown), 0);
      progress.Continue? && Classify(c, t, progress.state.position) == Noop
  {
    var k := e.firstOrder;
    assert e.script(k).Fill? && e.script(k).ratio == 1.0 && Acknowledges(e.script(k)) by {
      hide RiskClear, Roomy, CapAllows, OnTheWay, Market.Booked;
    }
    assert !c.dryRun && !c.risk.killSwitch;
    FlipClosesExactly(e.market, t, position, k, e.script(k), 1.0);
    var closed := ExecuteClose(false, e.market, t, position, Some(position), k, e.script(k));
    NewSideSettles(c, e, t, position, closed, 0);
    hide Classify, ExecuteClose, OpenAfterClose, Favourable, OnTheWay, Risk.TotalNotional, Flippable, Market.Booked;
    hide Position.AbsNotional;
  }
}
