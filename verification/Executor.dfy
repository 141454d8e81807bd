/**
  Turning a decision into at most one order (perpmirror/execution/executor.py).

  The functions say what a call submits, what it leaves on the exchange and what it returns or raises;
  the methods of `ExecutionEngine` do the same to a `FakeExchange`.
*/
module Executor {
  import opened Wrappers
  import opened Models
  import opened Exchange

  /** One order as the exchange saw it, with the position around it. */
  datatype Submission = Submission(request: OrderRequest, before: Option<Position>, after: Option<Position>, fill: real)

  datatype Effect = Effect(position: Option<Position>, submissions: seq<Submission>, outcome: Result<OrderResult,
                           Error>)

  function Requests(submissions: seq<Submission>): (r: seq<OrderRequest>)
    ensures |r| == |submissions|
  {
    seq(|submissions|, k requires 0 <= k < |submissions| => submissions[k].request)
  }

  lemma RequestsAppend(first: seq<Submission>, second: seq<Submission>)
    ensures Requests(first + second) == Requests(first) + Requests(second)
  {}

  /** Places an order; a timeout is resolved by one lookup and never by a second order. */
  function Submit(m: Market, position: Option<Position>, req: OrderRequest, response: Response): Effect {
    var p := Place(m, position, req, response);
    var outcome :=
      match p.reply
      case Accepted(result) => Ok(result)
      case Refused(error) => Err(error)
      case Unknown(Some(result)) => Ok(result)
      case Unknown(None) => Err(UnknownOrderState(req.clientOrderId));
    Effect(p.position, [Submission(req, position, p.position, p.fill)], outcome)
  }

  function OpeningSide(side: PositionSide): OrderSide {
    if side == Long then Buy else Sell
  }

  function ReducingSide(side: PositionSide): OrderSide {
    if side == Long then Sell else Buy
  }

  predicate Capped(i: Instrument) {
    i.maxQuantity.Some? && i.maxQuantity.value > 0.0
  }

  /** The quantity of an opening, adding or reducing order after the clamps and the minimums. */
  function DeltaQuantity(i: Instrument, price: real, actual: Option<Position>, orderNotional: real, reduceOnly: bool)
    : Result<real, Error>
  {
    match i.QuantityForNotional(orderNotional, price)
    case Err(error) => Err(error)
    case Ok(sized) =>
      var owned := if reduceOnly && actual.Some? then Min(sized, actual.value.quantity) else sized;
      var quantity := if Capped(i) then Min(owned, i.RoundDown(i.maxQuantity.value)) else owned;
      if quantity <= 0.0 || quantity < i.minQuantity then Err(UnsafeOperation)
      else if !reduceOnly && i.NotionalForQuantity(quantity, price) < Max(i.minNotional, 0.0) then Err(UnsafeOperation)
      else Ok(quantity)
  }

  function DeltaRequest(target: Target, actual: Option<Position>, quantity: real, reduceOnly: bool,
                        id: nat): OrderRequest
    requires reduceOnly ==> actual.Some?
  {
    if reduceOnly then
      OrderRequest(target.symbol, ReducingSide(actual.value.side), actual.value.side, quantity, true, Reducing, id)
    else
      OrderRequest(target.symbol, OpeningSide(target.side), target.side, quantity, false, Increasing, id)
  }

  function ExecuteDelta(dryRun: bool, m: Market, i: Instrument, target: Target, actual: Option<Position>,
                        position: Option<Position>, orderNotional: real, reduceOnly: bool, id: nat,
                        response: Response): Effect
  {
    match DeltaQuantity(i, m.price, actual, orderNotional, reduceOnly)
    case Err(error) => Effect(position, [], Err(error))
    case Ok(quantity) =>
      if reduceOnly && (actual.None? || actual.value.side == Flat) then Effect(position, [], Err(UnsafeOperation))
      else if dryRun then Effect(position, [], Ok(OrderResult(id, DryRun, 0.0)))
      else if !reduceOnly && response.Unset? then Effect(position, [], Err(SetterFailure))
      else Submit(m, position, DeltaRequest(target, actual, quantity, reduceOnly, id), response)
  }

  /** The quantity of a closing order: everything, or one market order's worth of it. */
  function CloseQuantity(instrument: Option<Instrument>, quantity: real): Result<real, Error> {
    if instrument.Some? && Capped(instrument.value) then
      match instrument.value.FloorQuantity(instrument.value.maxQuantity.value)
      case Err(error) => Err(error)
      case Ok(cap) => Ok(if cap > 0.0 && quantity > cap then cap else quantity)
    else Ok(quantity)
  }

  function CloseRequest(target: Target, actual: Position, quantity: real, id: nat): OrderRequest {
    OrderRequest(target.symbol, ReducingSide(actual.side), actual.side, quantity, true, Closing, id)
  }

  function ExecuteClose(dryRun: bool, m: Market, target: Target, actual: Position,
                        position: Option<Position>, id: nat, response: Response): Effect
  {
    match CloseQuantity(m.instrument, actual.quantity)
    case Err(error) => Effect(position, [], Err(error))
    case Ok(quantity) =>
      if dryRun then Effect(position, [], Ok(OrderResult(id, DryRun, 0.0)))
      else Submit(m, position, CloseRequest(target, actual, quantity, id), response)
  }

  class ExecutionEngine {
    const dryRun: bool

    constructor (dryRun: bool)
      ensures this.dryRun == dryRun
    {
      this.dryRun := dryRun;
    }

    /** Sends a request and resolves a timeout by looking the order up. */
    method Send(client: FakeExchange, request: OrderRequest) returns (r: Result<OrderResult, Error>)
      requires client.Valid() && request.clientOrderId == |client.orders|
      modifies client
      ensures client.Valid()
      ensures
        var effect := Submit(client.MarketOf(request.symbol), old(client.GetPosition(request.symbol)), request,
                             client.script(|old(client.orders)|));
        && r == effect.outcome
        && client.positions == WithLeg(old(client.positions), request.symbol, effect.position)
        && client.orders == old(client.orders) + Requests(effect.submissions)
    {
      r := client.PlaceMarketOrder(request);
      if r.Err? && r.error.UnknownOrderState? {
        var verified := client.VerifyOrder(r.error.clientOrderId);
        if verified.Some? && verified.value.status in {Filled, PartiallyFilled} {
          r := Ok(verified.value);
        }
      }
    }

    method Delta(client: FakeExchange, instrument: Instrument, target: Target, actual: Option<Position>,
                 orderNotional: real, reduceOnly: bool)
      returns (r: Result<OrderResult, Error>)
      requires client.Valid()
      modifies client
      ensures client.Valid()
      ensures
        var effect := ExecuteDelta(dryRun, client.MarketOf(target.symbol), instrument, target, actual,
                                   old(client.GetPosition(target.symbol)), orderNotional, reduceOnly,
                                   |old(client.orders)|, client.script(|old(client.orders)|));
        && r == effect.outcome
        && client.positions == WithLeg(old(client.positions), target.symbol, effect.position)
        && client.orders == old(client.orders) + Requests(effect.submissions)
    {
      WithLegTwice(client.positions, target.symbol, None, None);
      var price := client.MarketOf(target.symbol).price;
      var sized := instrument.QuantityForNotional(orderNotional, price);
      if sized.Err? {
        return Err(sized.error);
      }
      var quantity := sized.value;
      if reduceOnly && actual.Some? {
        quantity := Min(quantity, actual.value.quantity);
      }
      if instrument.maxQuantity.Some? && instrument.maxQuantity.value > 0.0 {
        quantity := Min(quantity, instrument.RoundDown(instrument.maxQuantity.value));
      }
      if quantity <= 0.0 || quantity < instrument.minQuantity {
        return Err(UnsafeOperation);
      }
      if !reduceOnly && instrument.NotionalForQuantity(quantity, price) < Max(instrument.minNotional, 0.0) {
        return Err(UnsafeOperation);
      }
      if reduceOnly && (actual.None? || actual.value.side == Flat) {
        return Err(UnsafeOperation);
      }
      var request := DeltaRequest(target, actual, quantity, reduceOnly, |client.orders|);
      if dryRun {
        return Ok(OrderResult(request.clientOrderId, DryRun, 0.0));
      }
      if !reduceOnly {
        var prepared := client.PrepareOrder();
        if prepared.Err? {
          return Err(prepared.error);
        }
      }
      r := Send(client, request);
    }

    method CloseOut(client: FakeExchange, target: Target, actual: Position) returns (r: Result<OrderResult, Error>)
      requires client.Valid()
      modifies client
      ensures client.Valid()
      ensures
        var effect := ExecuteClose(dryRun, client.MarketOf(target.symbol), target, actual,
                                   old(client.GetPosition(target.symbol)),
                                   |old(client.orders)|, client.script(|old(client.orders)|));
        && r == effect.outcome
        && client.positions == WithLeg(old(client.positions), target.symbol, effect.position)
        && client.orders == old(client.orders) + Requests(effect.submissions)
    {
      WithLegTwice(client.positions, target.symbol, None, None);
      var quantity := actual.quantity;
      var instrument := client.MarketOf(target.symbol).instrument;
      if instrument.Some? && instrument.value.maxQuantity.Some? && instrument.value.maxQuantity.value > 0.0 {
        var cap := instrument.value.FloorQuantity(instrument.value.maxQuantity.value);
        if cap.Err? {
          return Err(cap.error);
        }
        if cap.value > 0.0 && quantity > cap.value {
          quantity := cap.value;
        }
      }
      var request := CloseRequest(target, actual, quantity, |client.orders|);
      if dryRun {
        return Ok(OrderResult(request.clientOrderId, DryRun, 0.0));
      }
      r := Send(client, request);
    }
  }

  // ----- What a call can do to the position -----

  /** An accepted quantity is positive, respects the clamps and is worth at most the order it was sized for. */
  lemma DeltaQuantityFacts(m: Market, actual: Option<Position>, orderNotional: real, reduceOnly: bool)
    requires m.Ready() && orderNotional >= 0.0
    ensures
      var i := m.instrument.value;
      var r := DeltaQuantity(i, m.price, actual, orderNotional, reduceOnly);
      r.Ok? ==>
        && r.value > 0.0 && r.value >= i.minQuantity
        && m.Worth(r.value) <= orderNotional
        && (reduceOnly && actual.Some? ==> r.value <= actual.value.quantity)
        && (Capped(i) ==> r.value <= i.RoundDown(i.maxQuantity.value))
        && (!reduceOnly ==> m.Worth(r.value) >= Max(i.minNotional, 0.0))
  {
    hide Product, Instrument.RoundDown, Instrument.UnitValue;
    var i := m.instrument.value;
    var raw := Abs(orderNotional) / m.Unit();
    DivMul(Abs(orderNotional), m.Unit());
    MulMono(i.RoundDown(raw), raw, m.Unit());
    var r := DeltaQuantity(i, m.price, actual, orderNotional, reduceOnly);
    if r.Ok? {
      WorthLaws(m, r.value, i.RoundDown(raw));
    }
  }

  /** A quantity up to some whole number of lots within the limit. */
  ghost predicate Within(step: real, quantity: real, limit: real) {
    exists k: int :: quantity <= Times(k, step) && Times(k, step) <= limit
  }

  /** An order of this quantity is paid for, owned when it reduces, within the exchange's cap and above its minimums. */
  ghost predicate Admissible(m: Market, actual: Option<Position>, orderNotional: real, reduceOnly: bool, quantity: real)
    requires m.Ready()
  {
    var i := m.instrument.value;
    && quantity > 0.0 && Within(m.Step(), quantity, orderNotional / m.Unit())
    && (reduceOnly && actual.Some? ==> quantity <= actual.value.quantity)
    && (Capped(i) ==> Within(m.Step(), quantity, i.maxQuantity.value))
    && quantity >= i.minQuantity
    && (!reduceOnly ==> m.Worth(quantity) >= i.minNotional)
  }

  lemma WithinMeans(i: Instrument, quantity: real, limit: real)
    requires i.quantityStep > 0.0 && limit >= 0.0
    ensures Within(i.quantityStep, quantity, limit) <==> quantity <= i.RoundDown(limit)
  {
    LotsNonNegative(i, limit);
    if Within(i.quantityStep, quantity, limit) {
      var k :| quantity <= Times(k, i.quantityStep) && Times(k, i.quantityStep) <= limit;
      FloorIsGreatestMultiple(i, limit, k);
    } else {
      assert Times(i.Lots(limit), i.quantityStep) == i.RoundDown(limit) <= limit;
    }
    hide Times, Instrument.Lots;
  }

  /**
    An order is sized exactly if some quantity is admissible, and then to the greatest one: what is above the cap is
    cut down to it and not refused.
  */
  lemma DeltaQuantityIsGreatest(m: Market, actual: Option<Position>, orderNotional: real, reduceOnly: bool)
    requires m.Ready() && orderNotional >= 0.0
    ensures
      var r := DeltaQuantity(m.instrument.value, m.price, actual, orderNotional, reduceOnly);
      && (r.Ok? <==> exists quantity :: Admissible(m, actual, orderNotional, reduceOnly, quantity))
      && (r.Ok? ==>
            && Admissible(m, actual, orderNotional, reduceOnly, r.value)
            && forall quantity :: Admissible(m, actual, orderNotional, reduceOnly, quantity) ==> quantity <= r.value)
      && (r.Err? ==> r.error == UnsafeOperation)
  {
    var i := m.instrument.value;
    var r := DeltaQuantity(i, m.price, actual, orderNotional, reduceOnly);
    DivMul(orderNotional, m.Unit());
    forall quantity
      ensures Admissible(m, actual, orderNotional, reduceOnly, quantity) ==> r.Ok? && quantity <= r.value
      ensures r.Ok? && quantity == r.value ==> Admissible(m, actual, orderNotional, reduceOnly, quantity)
    {
      WithinMeans(i, quantity, orderNotional / m.Unit());
      if Capped(i) {
        WithinMeans(i, quantity, i.maxQuantity.value);
      }
      SizedIsGreatest(m, actual, orderNotional, reduceOnly, quantity);
    }
    hide Admissible, DeltaQuantity;
    assert r.Ok? ==> Admissible(m, actual, orderNotional, reduceOnly, r.value);
  }

  lemma SizedIsGreatest(m: Market, actual: Option<Position>, orderNotional: real, reduceOnly: bool, quantity: real)
    requires m.Ready() && orderNotional >= 0.0 && orderNotional / m.Unit() >= 0.0
    requires Within(m.Step(), quantity, orderNotional / m.Unit())
        <==> quantity <= m.instrument.value.RoundDown(orderNotional / m.Unit())
    requires
      var i := m.instrument.value;
      Capped(i) ==>
        (Within(m.Step(), quantity, i.maxQuantity.value) <==> quantity <= i.RoundDown(i.maxQuantity.value))
    ensures
      var r := DeltaQuantity(m.instrument.value, m.price, actual, orderNotional, reduceOnly);
      && (Admissible(m, actual, orderNotional, reduceOnly, quantity) ==> r.Ok? && quantity <= r.value)
      && (r.Ok? && quantity == r.value ==> Admissible(m, actual, orderNotional, reduceOnly, quantity))
      && (r.Err? ==> r.error == UnsafeOperation)
  {
    hide Within, Instrument.RoundDown, Product;
    var i := m.instrument.value;
    var sized := i.RoundDown(orderNotional / m.Unit());
    var owned := if reduceOnly && actual.Some? then Min(sized, actual.value.quantity) else sized;
    var most := if Capped(i) then Min(owned, i.RoundDown(i.maxQuantity.value)) else owned;
    assert i.QuantityForNotional(orderNotional, m.price) == Ok(sized);
    WorthLaws(m, quantity, most);
    WorthLaws(m, 0.0, most);
  }

  /** Every submission of the sequence starts where the previous one ended. */
  ghost predicate Chained(submissions: seq<Submission>, first: Option<Position>, last: Option<Position>) {
    && (submissions == [] ==> first == last)
    && (submissions != [] ==> submissions[0].before == first && submissions[|submissions| - 1].after == last)
    && forall k :: 0 < k < |submissions| ==> submissions[k].before == submissions[k - 1].after
  }

  /**
    What an order may do: it books exactly its fill, keeps to its side and quantity, and never crosses flat if
    reduce-only.
  */
  ghost predicate WellBehaved(m: Market, s: Submission)
    requires m.Ready()
  {
    && m.Booked(s.before) && m.Booked(s.after)
    && Signed(s.after) == Signed(s.before) + s.fill
    && Abs(s.fill) <= s.request.quantity
    && (s.request.side == Buy ==> s.fill >= 0.0)
    && (s.request.side == Sell ==> s.fill <= 0.0)
    && (s.request.reduceOnly ==>
          0.0 <= Signed(s.after) <= Signed(s.before) || Signed(s.before) <= Signed(s.after) <= 0.0)
    && (Aligned(m.Step(), Signed(s.before)) ==> Aligned(m.Step(), s.fill) && Aligned(m.Step(), Signed(s.after)))
  }

  /** The exchange's answer leaves the caller with a receipt, directly or by the lookup. */
  predicate Acknowledges(response: Response) {
    response.Fill? && (response.lost ==> response.recorded)
  }

  lemma SubmitFacts(m: Market, position: Option<Position>, req: OrderRequest, response: Response)
    requires m.Ready() && m.Booked(position) && req.quantity >= 0.0
    ensures
      var effect := Submit(m, position, req, response);
      && |effect.submissions| == 1
      && WellBehaved(m, effect.submissions[0])
      && effect.submissions[0].request == req
      && effect.submissions[0].before == position && effect.submissions[0].after == effect.position
      && m.Booked(effect.position)
      && (effect.outcome.Ok? ==> effect.submissions[0].fill != 0.0 && Acknowledges(response))
  {
    PlaceFacts(m, position, req, response);
    if Aligned(m.Step(), Signed(position)) {
      PlaceKeepsAlignment(m, position, req, response);
    }
    assert response.Unset? || response.Reject? ==>
      Place(m, position, req, response).reply == Refused(ExchangeRejection);
    assert response.Drop? ==> Place(m, position, req, response).reply == Unknown(None);
    assert response.Fill? && !Acknowledges(response) ==>
        var reply := Place(m, position, req, response).reply;
        reply.Refused? || reply == Unknown(None) by {
      hide FillOf, Signed, Book;
    }
    hide Place, Market.Booked;
  }
}
