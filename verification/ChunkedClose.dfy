/** Closing a position larger than one market order (README: orders above the exchange limit are split). */
module ChunkedClose {
  import opened Wrappers
  import opened Models
  import opened Exchange
  import opened Executor
  import opened Reconciler
  import opened Motion
  import opened RunSafety
  import opened RunResults
  import opened RiskOff
  import Risk

  /** A position of so many lots on a side; no lots is no position. */
  ghost predicate Holds(m: Market, side: PositionSide, lots: nat, position: Option<Position>)
    requires m.Ready()
  {
    && m.Booked(position)
    && (lots == 0 <==> position.None?)
    && (position.Some? ==> position.value.side == side && position.value.quantity == Times(lots, m.Step()))
  }

  /** Every order fills completely and is acknowledged, at once or by the lookup. */
  ghost predicate FillsEverything(e: Env) {
    forall k: nat :: e.script(k).Fill? && e.script(k).ratio == 1.0 && Acknowledges(e.script(k))
  }

  /** The exchange limits the quantity of a market order to at least one lot. */
  predicate Limits(m: Market)
    requires m.Ready()
  {
    Capped(m.instrument.value) && m.instrument.value.Lots(m.instrument.value.maxQuantity.value) > 0
  }

  /** One closing order for a position of `lots` lots may carry `cap` of them; without a limit, all. */
  ghost predicate CapLots(m: Market, cap: nat, lots: nat)
    requires m.Ready()
  {
    && cap > 0
    && if Limits(m) then cap == m.instrument.value.Lots(m.instrument.value.maxQuantity.value) else lots <= cap
  }

  function Chunk(lots: nat, cap: nat): nat {
    if lots > cap then cap else lots
  }

  /** How many orders of at most `cap` lots it takes. */
  function ChunksNeeded(lots: nat, cap: nat): nat
    requires cap > 0
  {
    if lots == 0 then 0 else 1 + ChunksNeeded(lots - Chunk(lots, cap), cap)
  }

  /** ... which is the quotient of the two, rounded up. */
  lemma {:induction false} ChunksNeededIsCeiling(lots: nat, cap: nat)
    requires cap > 0
    ensures
      var n := ChunksNeeded(lots, cap);
      lots <= n * cap && (lots > 0 ==> (n - 1) * cap < lots)
  {
    if lots > 0 {
      ChunksNeededIsCeiling(lots - Chunk(lots, cap), cap);
      var n := ChunksNeeded(lots - Chunk(lots, cap), cap);
      assert (n + 1) * cap == n * cap + cap;
      assert (n - 1) * cap == n * cap - cap;
    }
  }

  /** An order for whole lots that fills completely fills by exactly its quantity. */
  lemma FullFill(m: Market, lots: nat)
    requires m.Ready()
    ensures FillOf(m.instrument.value, Times(lots, m.Step()), 1.0) == Times(lots, m.Step())
  {
    assert Times(lots, m.Step()) * 1.0 == Times(lots, m.Step());
    hide Times;
    FloorKeepsLots(m.instrument.value, Times(lots, m.Step()), lots);
  }

  lemma TimesLess(lots: nat, part: nat, step: real)
    requires part <= lots && step > 0.0
    ensures Times(lots, step) - Times(part, step) == Times(lots - part, step)
    ensures 0.0 <= Times(part, step) <= Times(lots, step)
    ensures part > 0 ==> Times(part, step) > 0.0
  {
    TimesMono(0, part, step);
    TimesMono(part, lots, step);
    assert (lots - part) as real == lots as real - part as real;
    MulAdd(lots as real, -(part as real), step);
  }

  /** A fully filled closing order takes its lots off the position. */
  lemma FullClose(m: Market, position: Position, lots: nat, part: nat, req: OrderRequest, response: Response)
    requires m.Ready() && Holds(m, position.side, lots, Some(position))
    requires 0 < part <= lots && req.quantity == Times(part, m.Step())
    requires req.reduceOnly && req.side == ReducingSide(position.side)
    requires response.Fill? && response.ratio == 1.0 && Acknowledges(response)
    ensures
      var effect := Submit(m, Some(position), req, response);
      effect.outcome.Ok? && Holds(m, position.side, lots - part, effect.position)
  {
    hide Product, Times, FillOf;
    FullFill(m, part);
    TimesLess(lots, part, m.Step());
    var p := Some(position);
    var fill := SignedFill(Signed(p), req, Times(part, m.Step()));
    BookFacts(m, Signed(p) + fill.value);
    TimesMono(0, lots - part, m.Step());
    ZeroTimes(m.Step());
  }

  lemma ZeroTimes(step: real)
    ensures Times(0, step) == 0.0
  {}

  /** A closing order carries the whole position, or as much as the exchange takes. */
  lemma ClosingQuantity(m: Market, position: Position, lots: nat, cap: nat)
    requires m.Ready() && CapLots(m, cap, lots)
    requires lots > 0 && position.quantity == Times(lots, m.Step())
    ensures CloseQuantity(m.instrument, position.quantity) == Ok(Times(Chunk(lots, cap), m.Step()))
  {
    var i := m.instrument.value;
    if Capped(i) {
      LotsNonNegative(i, i.maxQuantity.value);
      TimesMono(0, i.Lots(i.maxQuantity.value), m.Step());
      ZeroTimes(m.Step());
    }
    TimesMono(lots, cap, m.Step());
    TimesMono(cap, lots, m.Step());
    hide Times, Instrument.Lots;
  }

  /** Filled and acknowledged, it takes its lots off the position. */
  lemma ClosingOrder(m: Market, t: Target, position: Position, lots: nat, cap: nat, id: nat, response: Response)
    requires m.Ready() && CapLots(m, cap, lots)
    requires lots > 0 && Holds(m, position.side, lots, Some(position))
    requires response.Fill? && response.ratio == 1.0 && Acknowledges(response)
    ensures
      var effect := ExecuteClose(false, m, t, position, Some(position), id, response);
      && effect.outcome.Ok? && |effect.submissions| == 1
      && effect.submissions[0].request.quantity == Times(Chunk(lots, cap), m.Step())
      && Holds(m, position.side, lots - Chunk(lots, cap), effect.position)
  {
    hide Times, Product, Market.Booked, Place;
    ClosingQuantity(m, position, lots, cap);
    hide CloseQuantity;
    var part := Chunk(lots, cap);
    FullClose(m, position, lots, part, CloseRequest(t, position, Times(part, m.Step()), id), response);
  }

  /** One attempt on a position that is to be closed: one order of at most `cap` lots, acknowledged. */
  lemma ClosingAttempt(c: Settings, e: Env, t: Target, initial: Option<Position>, s: State, attempt: nat,
                       side: PositionSide, lots: nat, cap: nat)
    requires e.market.Ready() && FillsEverything(e) && CapLots(e.market, cap, lots)
    requires !c.dryRun && !Frozen(c) && WantsFlat(t)
    requires lots > 0 && Holds(e.market, side, lots, s.position)
    ensures
      var progress := Attempt(c, e, t, initial, s, attempt);
      && progress.Continue?
      && |progress.state.submissions| == |s.submissions| + 1
      && s.submissions <= progress.state.submissions
      && progress.state.submissions[|s.submissions|].request.quantity == Times(Chunk(lots, cap), e.market.Step())
      && Holds(e.market, side, lots - Chunk(lots, cap), progress.state.position)
      && progress.state.cooldown == None
  {
    var k := e.firstOrder + |s.submissions|;
    assert e.script(k).Fill? && e.script(k).ratio == 1.0 && Acknowledges(e.script(k));
    assert s.position.value.side == side;
    hide FillsEverything, Times, Product, ExecuteClose, Risk.TotalNotional, CapLots, Holds, Position.AbsNotional;
    ClosingOrder(e.market, t, s.position.value, lots, cap, k, e.script(k));
  }

  function LeastOf(x: int, y: int): int {
    if x < y then x else y
  }

  /** The new orders of a run: each carries at most `cap` lots. */
  ghost predicate ChunksOf(m: Market, submissions: seq<Submission>, from: nat, cap: nat)
    requires m.Ready()
  {
    forall k :: from <= k < |submissions| ==> submissions[k].request.quantity <= Times(cap, m.Step())
  }

  lemma FlatIsDone(c: Settings, e: Env, t: Target, initial: Option<Position>, s: State, attempt: nat)
    requires WantsFlat(t) && s.position.None?
    ensures
      var progress := Attempt(c, e, t, initial, s, attempt);
      && progress.Done? && progress.run.submissions == s.submissions
      && progress.run.returned.Ok? && progress.run.returned.value.success
  {}

  lemma CapStays(m: Market, cap: nat, lots: nat, fewer: nat)
    requires m.Ready() && CapLots(m, cap, lots) && fewer <= lots
    ensures CapLots(m, cap, fewer)
  {}

  lemma {:induction false} ClosingLoop(c: Settings, e: Env, t: Target, initial: Option<Position>, s: State,
                                       attempt: nat,
                                       side: PositionSide, lots: nat, cap: nat)
    requires e.market.Ready() && FillsEverything(e) && CapLots(e.market, cap, lots)
    requires !c.dryRun && !Frozen(c) && WantsFlat(t) && attempt <= c.maxRetries + 1
    requires Holds(e.market, side, lots, s.position)
    ensures
      var run := Loop(c, e, t, initial, s, attempt);
      var needed, allowed := ChunksNeeded(lots, cap), c.maxRetries + 1 - attempt;
      && |run.submissions| == |s.submissions| + LeastOf(needed, allowed)
      && s.submissions <= run.submissions
      && ChunksOf(e.market, run.submissions, |s.submissions|, cap)
      && run.returned.Ok? && (run.returned.value.success <==> needed <= allowed)
    decreases c.maxRetries + 1 - attempt
  {
    hide FillsEverything, CapLots, Attempt, ClassifyExecuted, Times, AbsNotionalOf, Market.Booked;
    if lots == 0 {
      FlatIsDone(c, e, t, initial, s, attempt);
    } else if attempt <= c.maxRetries {
      hide Holds, Classify;
      ClosingAttempt(c, e, t, initial, s, attempt, side, lots, cap);
      var next := Attempt(c, e, t, initial, s, attempt).state;
      var part := Chunk(lots, cap);
      TimesMono(part, cap, e.market.Step());
      CapStays(e.market, cap, lots, lots - part);
      ClosingLoop(c, e, t, initial, next, attempt + 1, side, lots - part, cap);
    }
  }

  /**
    With full fills, closing `lots` lots with at most `cap` lots per order submits exactly as many orders as
    needed or as the retries allow, each within the cap, and succeeds exactly if the retries suffice.
  */
  lemma ChunkedCloseIsExact(c: Settings, e: Env, t: Target, position: Option<Position>,
                            cooldown: Option<FailureCooldown>,
                            side: PositionSide, lots: nat, cap: nat)
    requires e.market.Ready() && FillsEverything(e) && CapLots(e.market, cap, lots)
    requires !c.dryRun && !Frozen(c) && WantsFlat(t) && c.maxRetries >= 0
    requires Holds(e.market, side, lots, position)
    ensures
      var run := Reconcile(c, e, t, position, cooldown);
      var needed := ChunksNeeded(lots, cap);
      && |run.submissions| == LeastOf(needed, c.maxRetries + 1)
      && (forall k :: 0 <= k < |run.submissions| ==> run.submissions[k].request.quantity <= Times(cap, e.market.Step()))
      && run.returned.Ok? && (run.returned.value.success <==> needed <= c.maxRetries + 1)
  {
    hide Loop, Times, ChunksNeeded;
    ClosingLoop(c, e, t, position, State(position, [], [], cooldown), 0, side, lots, cap);
  }
}
