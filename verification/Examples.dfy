/**
  Concrete runs at which an expectation fails (perpmirror/copy/reconciler.py): two that lose receipts, one for
  each way that module Receipts allows, a close that never ends, and one that the exchange's cap spreads over several
  orders.
*/
module Examples {
  import opened Wrappers
  import opened Models
  import opened Exchange
  import opened Executor
  import opened Reconciler
  import opened RunResults
  import opened Receipts
  import opened Exits
  import opened ChunkedClose
  import opened Convergence
  import opened CappedOrders
  import Risk

  const LIMITS := Risk.Config(true, 1.0, 100.0, 100.0, 100.0, 10, 6.0, {}, {}, false, false)
  const RETRYING := Settings(LIMITS, false, 0.0, 0.0, 1, 0.0)
  const LOT := Instrument(1.0, 0.0, None, 0.0, 1.0, 1.0)
  const MARKET := Market(Some(LOT), 1.0)

  function Filling(ratio: FillRatio): Env {
    Env(MARKET, _ => map[], FakeScript(ratio, false, false), 0, _ => Moment(0.0, 0.0, 0.0))
  }

  lemma LotFacts(lots: nat)
    ensures MARKET.Ready() && LOT.UnitValue(1.0) == 1.0
    ensures LOT.RoundDown(lots as real) == lots as real && LOT.NotionalForQuantity(lots as real, 1.0) == lots as real
  {
    assert LOT.BasePerQuantity() == 1.0;
    assert Times(lots, 1.0) == lots as real;
    FloorKeepsLots(LOT, lots as real, lots);
  }

  /** An order for ten lots that fills by half. */
  lemma HalfOrder(t: Target)
    requires t.side == Long
    ensures
      var effect := ExecuteDelta(false, MARKET, LOT, t, None, None, 10.0, false, 0, Fill(0.5, false, true));
      && effect.outcome.Ok? && effect.position == Some(Position(Long, 5.0, 5.0))
      && |effect.submissions| == 1 && effect.submissions[0].fill == 5.0
  {
    LotFacts(10);
    LotFacts(5);
    assert LOT.QuantityForNotional(10.0, 1.0) == Ok(10.0);
    assert FillOf(LOT, 10.0, 0.5) == 5.0;
    hide Instrument.RoundDown, Instrument.UnitValue, Product;
  }

  lemma NothingElse(symbol: string, own: Option<Position>)
    ensures Risk.TotalNotional(WithLeg(map[], symbol, own)) == AbsNotionalOf(own)
    ensures |WithLeg(map[], symbol, own)| <= 1
  {
    Risk.PortfolioTotal(map[], symbol, own);
    assert Risk.Notionals(map[] - {symbol}) == map[];
  }

  /** The first attempt opens by half. */
  lemma OpensByHalf(t: Target) returns (next: State)
    requires t == Target("f", "A", Long, 10.0, 1.0)
    ensures Attempt(RETRYING, Filling(0.5), t, None, State(None, [], [], None), 0) == Continue(next)
    ensures next.position == Some(Position(Long, 5.0, 5.0)) && next.cooldown == None
    ensures |next.submissions| == 1 && next.submissions[0].fill == 5.0
  {
    HalfOrder(t);
    NothingElse("A", None);
    hide ExecuteDelta, Risk.TotalNotional, WithLeg;
    assert Classify(RETRYING, t, None) == Open;
    var effect := DeltaAction(RETRYING, Filling(0.5), t, None, Open, 0, 0);
    assert effect.outcome.Orders? && |effect.submissions| == 1 && effect.submissions[0].fill == 5.0;
    assert [] + effect.submissions == effect.submissions;
    hide DeltaAction, Classify;
    next := Attempt(RETRYING, Filling(0.5), t, None, State(None, [], [], None), 0).state;
  }

  /** What is missing is below the minimum order. */
  lemma RestIsBlocked(t: Target, n: nat)
    requires t == Target("f", "A", Long, 10.0, 1.0)
    ensures
      var half := Some(Position(Long, 5.0, 5.0));
      && Classify(RETRYING, t, half) == Add
      && ExecuteAction(RETRYING, Filling(0.5), t, half, 1, n) ==
           ActionEffect(half, [], Stopped(BlockedResult(t, half, Risk.MinOrderNotional)))
  {
    NothingElse("A", Some(Position(Long, 5.0, 5.0)));
    hide ExecuteDelta, Risk.TotalNotional, WithLeg;
  }

  /** An opening order fills by half; the rest is below the minimum order, and the block lists no order at all. */
  lemma RiskBlockLosesReceipt()
    ensures
      var run := Reconcile(RETRYING, Filling(0.5), Target("f", "A", Long, 10.0, 1.0), None, None);
      && run.returned.Ok? && run.returned.value.action == RiskBlocked && run.returned.value.orderResults == []
      && |run.submissions| == 1 && run.submissions[0].fill == 5.0
  {
    var t, e, s := Target("f", "A", Long, 10.0, 1.0), Filling(0.5), State(None, [], [], None);
    var next := OpensByHalf(t);
    RestIsBlocked(t, |next.submissions|);
    LoopGoesOn(RETRYING, e, t, None, s, 0);
    hide Classify, ExecuteAction;
    assert next.submissions + [] == next.submissions;
    assert Attempt(RETRYING, e, t, None, next, 1).Done?;
    LoopOnce(RETRYING, e, t, None, next, 1);
    hide Loop;
  }

  /** Ten lots long, closed by a complete fill. */
  lemma CloseOfTen(t: Target)
    ensures
      var held := Position(Long, 10.0, 10.0);
      var closed := ExecuteClose(false, MARKET, t, held, Some(held), 0, Fill(1.0, false, true));
      && closed.outcome.Ok? && closed.position == None
      && |closed.submissions| == 1 && closed.submissions[0].fill == -10.0
  {
    LotFacts(10);
    assert FillOf(LOT, 10.0, 1.0) == 10.0;
    hide Instrument.RoundDown, Product;
  }

  lemma HalfALot(t: Target)
    ensures
      var effect := ExecuteDelta(false, MARKET, LOT, t, None, None, 0.5, false, 1, Fill(1.0, false, true));
      effect == Effect(None, [], Err(UnsafeOperation))
  {
    LotFacts(0);
    assert LOT.Lots(0.5) == 0 && Times(0, 1.0) == 0.0;
    assert LOT.QuantityForNotional(0.5, 1.0) == Ok(0.0);
  }

  const FREE := RETRYING.(risk := LIMITS.(minOrderNotional := 0.0))

  /** The opening order of the flip cannot be sized. */
  lemma NewSideTooSmall(t: Target, held: Position, closed: Effect)
    requires t == Target("f", "A", Short, 0.5, 1.0)
    requires closed.outcome.Ok? && closed.position.None? && |closed.submissions| == 1
    ensures OpenAfterClose(FREE, Filling(1.0), t, held, closed, 0, 0) == ActionEffect(None, closed.submissions,
                                                                                      Raises(UnsafeOperation))
  {
    HalfALot(t);
    NothingElse("A", None);
    hide ExecuteDelta, Risk.TotalNotional, WithLeg;
    assert closed.submissions + [] == closed.submissions;
  }

  /** A flip whose closing order fills. */
  lemma FlipsHalfway(t: Target)
    requires t == Target("f", "A", Short, 0.5, 1.0)
    ensures
      var held := Some(Position(Long, 10.0, 10.0));
      var effect := ExecuteAction(FREE, Filling(1.0), t, held, 0, 0);
      && Classify(FREE, t, held) == Flip
      && effect.position == None && effect.outcome == Raises(UnsafeOperation)
      && |effect.submissions| == 1 && effect.submissions[0].fill == -10.0
  {
    var held := Position(Long, 10.0, 10.0);
    CloseOfTen(t);
    hide ExecuteClose, Risk.TotalNotional, WithLeg, OpenAfterClose;
    NewSideTooSmall(t, held, ExecuteClose(false, MARKET, t, held, Some(held), 0, Filling(1.0).script(0)));
  }

  /** The new side is less than one lot, and the failure lists no order at all. */
  lemma FailedFlipLosesReceipt()
    ensures
      var run := Reconcile(FREE, Filling(1.0), Target("f", "A", Short, 0.5, 1.0), Some(Position(Long, 10.0, 10.0)),
                           None);
      && run.returned.Ok? && run.returned.value.action == OrderFailed && run.returned.value.orderResults == []
      && |run.submissions| == 1 && run.submissions[0].fill == -10.0 && run.position == None
  {
    var t, e, held := Target("f", "A", Short, 0.5, 1.0), Filling(1.0), Some(Position(Long, 10.0, 10.0));
    var s := State(held, [], [], None);
    FlipsHalfway(t);
    hide Classify, ExecuteAction;
    var effect := ExecuteAction(FREE, e, t, held, 0, 0);
    assert [] + effect.submissions == effect.submissions;
    assert Attempt(FREE, e, t, held, s, 0).Done?;
    LoopOnce(FREE, e, t, held, s, 0);
    hide Loop;
  }

  /** Ten lots that are to be closed against half fills: no retry count closes them. */
  lemma HalfFillsNeverClose(maxRetries: int)
    ensures
      var held := Some(Position(Long, 10.0, 10.0));
      var run := Reconcile(FREE.(maxRetries := maxRetries), Filling(0.5), Target("f", "A", Flat, 0.0, 1.0), held, None);
      run.position.Some? && !(run.returned.Ok? && run.returned.value.success)
  {
    LotFacts(10);
    assert MARKET.Booked(Some(Position(Long, 10.0, 10.0)));
    assert NeverFills(Filling(0.5));
    hide Reconcile, Market.Booked, NeverFills;
    PartialFillsNeverClose(FREE.(maxRetries := maxRetries), Filling(0.5), Target("f", "A", Flat, 0.0, 1.0),
                           Some(Position(Long, 10.0, 10.0)), None);
  }

  const CAPPED := Market(Some(LOT.(maxQuantity := Some(10.0))), 1.0)

  function CappedFilling(): Env {
    Env(CAPPED, _ => map[], FakeScript(1.0, false, false), 0, _ => Moment(0.0, 0.0, 0.0))
  }

  function Patient(maxRetries: int): Settings {
    Settings(LIMITS.(minOrderNotional := 0.0), false, 0.0, 0.0, maxRetries, 0.0)
  }

  /** An opening for 25 lots where one order takes ten: three orders, and two attempts do not suffice. */
  lemma CappedOpenTakesThreeOrders(maxRetries: int)
    requires maxRetries >= 0
    ensures
      var run := Reconcile(Patient(maxRetries), CappedFilling(), Target("f", "A", Long, 25.0, 1.0), None, None);
      && |run.submissions| == LeastOf(3, maxRetries + 1) && run.submissions[0].request.quantity == 10.0
      && run.returned.Ok? && (run.returned.value.success <==> maxRetries >= 2)
  {
    var t, c, e := Target("f", "A", Long, 25.0, 1.0), Patient(maxRetries), CappedFilling();
    assert c.maxRetries == maxRetries;
    CappedLots();
    CappedOpenIsUnhindered(t, maxRetries);
    assert OrdersNeeded(25, 10, 0) == 3;
    hide Reconcile, CappedFilling, Patient, Unhindered, OnTheWay, Gap, Spans, OrderLots, Suppresses, Classify;
    CappedOrdersAreExact(c, e, t, None, None, 0.0, 0, 10, 25);
  }

  lemma CappedOpenIsUnhindered(t: Target, maxRetries: int)
    requires t == Target("f", "A", Long, 25.0, 1.0)
    ensures CappedFilling().market == CAPPED && CAPPED.Ready()
    ensures Gap(CAPPED, t, None) == 25.0 && OnTheWay(Patient(maxRetries), CAPPED, t, None)
    ensures Unhindered(Patient(maxRetries), CappedFilling(), t, 0.0, 0, 10, 25.0)
    ensures !Suppresses(Patient(maxRetries), None, t, Classify(Patient(maxRetries), t, None),
                        CappedFilling().clock(0).checked)
  {
    CappedLots();
    assert Tolerance(Patient(maxRetries), 25.0) == 0.0;
    hide Absorbs, PassesMinimums;
    CappedOpenIsAllowed(t, maxRetries);
    hide RiskClear, Product, Market.Worth, Market.LotValue;
  }

  lemma CappedOpenIsAllowed(t: Target, maxRetries: int)
    requires t == Target("f", "A", Long, 25.0, 1.0)
    ensures RiskClear(Patient(maxRetries), CappedFilling(), t, 0.0, 25.0)
  {
    NothingElse("A", None);
    forall k: nat
      ensures CappedFilling().others(k) - {"A"} == map[]
    {}
    hide Risk.TotalNotional, WithLeg;
  }

  lemma CappedLots()
    ensures CAPPED.Ready() && CAPPED.LotValue() == 1.0 && CAPPED.Value(None) == 0.0
    ensures Spans(CAPPED, 25.0, 25, 0.0) && OrderLots(CAPPED, 10, 25) && Absorbs(CAPPED, 0.0, 0.0, 0)
    ensures PassesMinimums(CAPPED, 1) && PassesMinimums(CAPPED, 10) && Times(10, CAPPED.Step()) == 10.0
  {
    assert CAPPED.instrument.value.BasePerQuantity() == 1.0 && CAPPED.instrument.value.UnitValue(1.0) == 1.0;
    assert Times(25, 1.0) == 25.0 && Times(10, 1.0) == 10.0 && Times(1, 1.0) == 1.0 && Times(0, 1.0) == 0.0;
    FloorKeepsLots(CAPPED.instrument.value, 10.0, 10);
  }
}
