/**
  The exchange as a step semantics (perpmirror/fake/exchange.py).

  The fake answers every order in the same way. Here each order gets its own `Response`, so the fill of
  an order is any whole number of lots up to its quantity and any acknowledgement may be lost; a
  statement about every script covers the fake (`FakeScript`) and much more.
*/
module Exchange {
  import opened Wrappers
  import opened Models

  type FillRatio = r: real | 0.0 <= r <= 1.0 witness 1.0

  /** How one submitted order is answered. */
  datatype Response =
    | Unset                                                // no order: margin mode or leverage could not be set
    | Reject
    | Drop                                                 // no fill, and the caller only sees a timeout
    | Fill(ratio: FillRatio, lost: bool, recorded: bool)   // `lost`: timeout after it; `recorded`: a lookup finds it

  /** What the caller of `place_market_order` sees. */
  datatype Reply =
    | Accepted(result: OrderResult)
    | Refused(error: Error)
    | Unknown(onRecord: Option<OrderResult>)

  /** The position after the order, the signed quantity it filled, and the reply. */
  datatype Placement = Placement(position: Option<Position>, fill: real, reply: Reply)

  function FakeScript(ratio: FillRatio, rejectOrders: bool, timeoutAfterFill: bool): nat -> Response {
    _ => if rejectOrders then Reject else Fill(ratio, timeoutAfterFill, true)
  }

  function Book(i: Instrument, price: real, signed: real): Option<Position> {
    if signed == 0.0 then None
    else Some(Position(if signed > 0.0 then Long else Short, Abs(signed), i.NotionalForQuantity(signed, price)))
  }

  function Place(m: Market, position: Option<Position>, req: OrderRequest, response: Response): Placement {
    match response
    case Unset => Placement(position, 0.0, Refused(ExchangeRejection))
    case Reject => Placement(position, 0.0, Refused(ExchangeRejection))
    case Drop => Placement(position, 0.0, Unknown(None))
    case Fill(ratio, lost, recorded) =>
      if m.instrument.None? then Placement(position, 0.0, Refused(KeyError))
      else if m.instrument.value.quantityStep <= 0.0 then Placement(position, 0.0, Refused(ValueError))
      else
        var filled := FillOf(m.instrument.value, req.quantity, ratio);
        Settle(m.instrument.value, m.price, position, req, filled, ratio >= 1.0, lost, recorded)
  }

  /** The part of an order that fills, in whole lots. */
  function FillOf(i: Instrument, quantity: real, ratio: FillRatio): (f: real)
    requires i.quantityStep > 0.0
    ensures 0.0 <= f && (0.0 <= quantity ==> f <= quantity)
    ensures Aligned(i.quantityStep, f)
  {
    ScaleDown(quantity, ratio);
    LotsNonNegative(i, quantity * ratio);
    i.RoundDown(quantity * ratio)
  }

  lemma ScaleDown(q: real, r: real)
    requires 0.0 <= r <= 1.0
    ensures q >= 0.0 ==> 0.0 <= q * r <= q
  {}

  /** Books a floored fill and answers the order. */
  function Settle(i: Instrument, price: real, position: Option<Position>, req: OrderRequest,
                  filled: real, complete: bool, lost: bool, recorded: bool): Placement
  {
    if filled <= 0.0 then Placement(position, 0.0, Refused(ExchangeRejection))
    else
      match SignedFill(Signed(position), req, filled)
      case None => Placement(position, 0.0, Refused(ExchangeRejection))
      case Some(fill) =>
        var result := OrderResult(req.clientOrderId, if complete then Filled else PartiallyFilled, Abs(fill));
        Placement(Book(i, price, Signed(position) + fill), fill,
                  if lost then Unknown(if recorded then Some(result) else None) else Accepted(result))
  }

  /** The signed fill that is booked: a reduce-only order must oppose the position and stops at flat. */
  function SignedFill(current: real, req: OrderRequest, filled: real): Option<real> {
    var delta := if req.side == Buy then filled else -filled;
    if !req.reduceOnly then Some(delta)
    else if !(current < 0.0 < delta || delta < 0.0 < current) then None
    else Some(if filled > Abs(current) then -current else delta)
  }

  function Leg(positions: map<string, Position>, symbol: string): Option<Position> {
    if symbol in positions then Some(positions[symbol]) else None
  }

  function WithLeg(positions: map<string, Position>, symbol: string, leg: Option<Position>): map<string, Position> {
    if leg.Some? then positions[symbol := leg.value] else positions - {symbol}
  }

  lemma WithLegTwice(positions: map<string, Position>, symbol: string, first: Option<Position>,
                     second: Option<Position>)
    ensures WithLeg(WithLeg(positions, symbol, first), symbol, second) == WithLeg(positions, symbol, second)
    ensures Leg(WithLeg(positions, symbol, first), symbol) == first
    ensures WithLeg(positions, symbol, Leg(positions, symbol)) == positions
  {}

  /** An account on the exchange: `get_positions`, `place_market_order`, `close_position`, `verify_order`. */
  class FakeExchange {
    const instruments: map<string, Instrument>
    const prices: string -> real
    const script: nat -> Response
    var positions: map<string, Position>
    var orders: seq<OrderRequest>
    var orderResults: map<nat, OrderResult>

    /** Only submitted orders have results; client order ids are fresh. */
    ghost predicate Valid()
      reads this
    {
      forall id :: id in orderResults ==> id < |orders|
    }

    constructor (instruments: map<string, Instrument>, positions: map<string, Position>,
                 prices: string -> real, script: nat -> Response)
      ensures Valid()
      ensures this.instruments == instruments && this.prices == prices && this.script == script
      ensures this.positions == positions && orders == [] && orderResults == map[]
    {
      this.instruments, this.prices, this.script := instruments, prices, script;
      this.positions, this.orders, this.orderResults := positions, [], map[];
    }

    function MarketOf(symbol: string): Market {
      Market(if symbol in instruments then Some(instruments[symbol]) else None, prices(symbol))
    }

    function GetPosition(symbol: string): Option<Position>
      reads this
    {
      Leg(positions, symbol)
    }

    function VerifyOrder(clientOrderId: nat): Option<OrderResult>
      reads this
    {
      if clientOrderId in orderResults then Some(orderResults[clientOrderId]) else None
    }

    /** `set_margin_mode` and `set_leverage`, before the next order; neither takes part in quantities. */
    method PrepareOrder() returns (r: Result<(), Error>)
      ensures r == if script(|orders|).Unset? then Err(SetterFailure) else Ok(())
    {
      return if script(|orders|).Unset? then Err(SetterFailure) else Ok(());
    }

    /** Books the order and answers it as scripted; a timeout is an `UnknownOrderState`. */
    method PlaceMarketOrder(request: OrderRequest) returns (r: Result<OrderResult, Error>)
      requires Valid() && request.clientOrderId == |orders|
      modifies this
      ensures Valid()
      ensures orders == old(orders) + [request]
      ensures
        var p := Place(MarketOf(request.symbol), old(GetPosition(request.symbol)), request, script(|old(orders)|));
        && positions == WithLeg(old(positions), request.symbol, p.position)
        && match p.reply
    {
             case Accepted(result) => r == Ok(result) && VerifyOrder(request.clientOrderId) == Some(result)
             case Refused(error) => r == Err(error) && VerifyOrder(request.clientOrderId) == None
             case Unknown(onRecord) =>
               r == Err(UnknownOrderState(request.clientOrderId)) && VerifyOrder(request.clientOrderId) == onRecord
           }
      ensures forall id :: id != request.clientOrderId ==> VerifyOrder(id) == old(VerifyOrder(id))
    {
      var placement := Place(MarketOf(request.symbol), GetPosition(request.symbol), request, script(|orders|));
      orders := orders + [request];
      positions := WithLeg(positions, request.symbol, placement.position);
      match placement.reply {
        case Accepted(result) =>
          orderResults := orderResults[request.clientOrderId := result];
          r := Ok(result);
        case Refused(error) =>
          r := Err(error);
        case Unknown(onRecord) =>
          if onRecord.Some? {
            orderResults := orderResults[request.clientOrderId := onRecord.value];
          }
          r := Err(UnknownOrderState(request.clientOrderId));
      }
    }
  }

  // ----- What one placement does -----

  lemma BookFacts(m: Market, signed: real)
    requires m.Ready()
    ensures
      var p := Book(m.instrument.value, m.price, signed);
      m.Booked(p) && Signed(p) == signed && (p.None? <==> signed == 0.0)
  {
    hide Product;
  }

  /**
    Conservation for one order: the signed position moves by exactly the booked fill. The fill has the
    side of the order and is at most its quantity, and a reduce-only order neither grows the position
    nor turns it around.
  */
  ghost predicate Settled(m: Market, position: Option<Position>, req: OrderRequest, p: Placement)
    requires m.Ready()
  {
    && m.Booked(p.position)
    && Signed(p.position) == Signed(position) + p.fill
    && Abs(p.fill) <= req.quantity
    && (req.side == Buy ==> p.fill >= 0.0)
    && (req.side == Sell ==> p.fill <= 0.0)
    && (req.reduceOnly ==>
          0.0 <= Signed(p.position) <= Signed(position) || Signed(position) <= Signed(p.position) <= 0.0)
    && (p.reply.Accepted? || (p.reply.Unknown? && p.reply.onRecord.Some?) ==> p.fill != 0.0)
    && (p.reply.Refused? ==> p.position == position && p.fill == 0.0)
  }

  lemma SettleFacts(m: Market, position: Option<Position>, req: OrderRequest,
                    filled: real, complete: bool, lost: bool, recorded: bool)
    requires m.Ready() && m.Booked(position)
    requires filled <= req.quantity && 0.0 <= req.quantity
    ensures Settled(m, position, req,
                    Settle(m.instrument.value, m.price, position, req, filled, complete, lost, recorded))
  {
    var fill := SignedFill(Signed(position), req, filled);
    if filled > 0.0 && fill.Some? {
      BookFacts(m, Signed(position) + fill.value);
    }
  }

  lemma PlaceFacts(m: Market, position: Option<Position>, req: OrderRequest, response: Response)
    requires m.Ready() && m.Booked(position)
    requires req.quantity >= 0.0
    ensures Settled(m, position, req, Place(m, position, req, response))
  {
    hide FillOf;
    if response.Fill? {
      var filled := FillOf(m.instrument.value, req.quantity, response.ratio);
      SettleFacts(m, position, req, filled, response.ratio >= 1.0, response.lost, response.recorded);
    }
  }

  /** Whole lots stay whole lots, whatever part of the order fills. */
  lemma PlaceKeepsAlignment(m: Market, position: Option<Position>, req: OrderRequest, response: Response)
    requires m.Ready()
    requires Aligned(m.Step(), Signed(position))
    ensures Aligned(m.Step(), Signed(Place(m, position, req, response).position))
    ensures Aligned(m.Step(), Place(m, position, req, response).fill)
  {
    assert IsLots(m.Step(), 0.0, 0);
    hide FillOf;
    if response.Fill? {
      var filled := FillOf(m.instrument.value, req.quantity, response.ratio);
      SettleKeepsAlignment(m, position, req, filled, response.ratio >= 1.0, response.lost, response.recorded);
    }
  }

  lemma SettleKeepsAlignment(m: Market, position: Option<Position>, req: OrderRequest,
                             filled: real, complete: bool, lost: bool, recorded: bool)
    requires m.Ready()
    requires Aligned(m.Step(), Signed(position)) && Aligned(m.Step(), filled)
    ensures
      var p := Settle(m.instrument.value, m.price, position, req, filled, complete, lost, recorded);
      Aligned(m.Step(), Signed(p.position)) && Aligned(m.Step(), p.fill)
  {
    assert IsLots(m.Step(), 0.0, 0);
    AlignedSum(m.Step(), filled, filled);
    AlignedSum(m.Step(), Signed(position), filled);
    var fill := SignedFill(Signed(position), req, filled);
    if filled > 0.0 && fill.Some? {
      AlignedSum(m.Step(), Signed(position), fill.value);
      BookFacts(m, Signed(position) + fill.value);
    }
  }

  /**
    Whether an order's answer gets lost, and whether it is on record, makes no difference to what it fills; and what
    is on record is what would have been answered.
  */
  lemma LostAnswersMoveTheSame(m: Market, position: Option<Position>, req: OrderRequest, ratio: FillRatio,
                               recorded: bool)
    ensures
      var plain, lost := Place(m, position, req, Fill(ratio, false, recorded)),
                         Place(m, position, req, Fill(ratio, true, recorded));
      && lost.position == plain.position && lost.fill == plain.fill
      && (match plain.reply
          case Accepted(result) =>
            && lost.reply == Unknown(if recorded then Some(result) else None)
            && (result.status == Filled <==> ratio == 1.0) && result.filledQuantity == Abs(plain.fill)
          case Refused(error) => lost.reply == plain.reply
          case Unknown(_) => false)
  {
    hide FillOf, Book, SignedFill;
  }
}
