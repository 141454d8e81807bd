/**
  Value types of the engine and its lot arithmetic (perpmirror/models.py and perpmirror/enums.py).

  A Decimal is a `real`: the arithmetic is exact and Python's 28-digit context rounding is not modelled.
  Quantities are native order quantities; notionals are USDT.
*/
module Models {
  import opened Wrappers

  datatype PositionSide = Long | Short | Flat

  datatype OrderSide = Buy | Sell

  datatype OrderStatus = Filled | PartiallyFilled | DryRun

  datatype Action = Open | Add | Reduce | Close | Flip | Noop | RiskBlocked | OrderFailed

  /** What a call can raise. Only some of these derive from PerpMirrorError. */
  datatype Error =
    | UnsafeOperation
    | InstrumentNotFound
    | ExchangeRejection
    | SetterFailure
    | UnknownOrderState(clientOrderId: nat)
    | ValueError
    | KeyError
  {
    /** True if the reconciler's `except PerpMirrorError` catches the error. */
    predicate IsPerpMirrorError() {
      !ValueError? && !KeyError?
    }
  }

  function Abs(x: real): real {
    if x < 0.0 then -x else x
  }

  function Min(x: real, y: real): real {
    if y < x then y else x
  }

  function Max(x: real, y: real): real {
    if y > x then y else x
  }

  // Products are named so that proofs can treat them as atoms (`hide Product`) and use the laws below.

  function Product(x: real, y: real): real {
    x * y
  }

  /** `count` steps of size `step`. */
  function Times(count: int, step: real): real {
    count as real * step
  }

  datatype Instrument = Instrument(
    quantityStep: real,
    minQuantity: real,
    maxQuantity: Option<real>,
    minNotional: real,
    contractValue: real,
    contractMultiplier: real)
  {
    function BasePerQuantity(): real {
      Product(contractValue, contractMultiplier)
    }

    /** Whole lots contained in a quantity, counted toward zero. */
    function Lots(quantity: real): int
      requires quantityStep > 0.0
    {
      (Abs(quantity) / quantityStep).Floor
    }

    /** `floor_quantity` for a positive step: the magnitude cut down to whole lots. */
    function RoundDown(quantity: real): (r: real)
      requires quantityStep > 0.0
      ensures 0.0 <= r <= Abs(quantity) < r + quantityStep
    {
      FloorBracket(Abs(quantity), quantityStep, Lots(quantity));
      Times(Lots(quantity), quantityStep)
    }

    function FloorQuantity(quantity: real): Result<real, Error> {
      if quantityStep <= 0.0 then Err(ValueError) else Ok(RoundDown(quantity))
    }

    function QuantityForNotional(notional: real, price: real): Result<real, Error> {
      if price <= 0.0 || BasePerQuantity() <= 0.0 then Err(ValueError)
      else FloorQuantity(Abs(notional) / UnitValue(price))
    }

    function NotionalForQuantity(quantity: real, price: real): real {
      Product(Abs(quantity), UnitValue(price))
    }

    /** USDT per unit of native quantity. */
    function UnitValue(price: real): real {
      Product(price, BasePerQuantity())
    }
  }

  /** An open position. Margin mode, leverage and entry data do not take part in sizing and are left out. */
  datatype Position = Position(side: PositionSide, quantity: real, notional: real) {
    function AbsNotional(): real {
      Abs(notional)
    }
  }

  /** Signed quantity as the exchange books it: anything that is not long counts as short. */
  function Signed(position: Option<Position>): real {
    match position
    case None => 0.0
    case Some(p) => if p.side == Long then p.quantity else -p.quantity
  }

  function AbsNotionalOf(position: Option<Position>): real {
    if position.Some? then position.value.AbsNotional() else 0.0
  }

  datatype Target = Target(followerId: string, symbol: string, side: PositionSide, notional: real, leverage: real)

  /** Which of the executor's three client order id prefixes the order carries. */
  datatype Purpose = Closing | Reducing | Increasing

  datatype OrderRequest = OrderRequest(
    symbol: string,
    side: OrderSide,
    positionSide: PositionSide,
    quantity: real,
    reduceOnly: bool,
    purpose: Purpose,
    clientOrderId: nat)

  datatype OrderResult = OrderResult(clientOrderId: nat, status: OrderStatus, filledQuantity: real)

  /** What one symbol trades as: its metadata, if the exchange lists it, and its mark price. */
  datatype Market = Market(instrument: Option<Instrument>, price: real) {
    /** The metadata is present and the price, the step and the contract size are positive. */
    predicate Ready() {
      instrument.Some? && price > 0.0 && instrument.value.quantityStep > 0.0 && instrument.value.BasePerQuantity() > 0.0
    }

    function Unit(): (u: real)
      requires Ready()
      ensures u > 0.0
    {
      MulPos(price, instrument.value.BasePerQuantity());
      instrument.value.UnitValue(price)
    }

    function Step(): (s: real)
      requires Ready()
      ensures s > 0.0
    {
      instrument.value.quantityStep
    }

    /** USDT value of a signed quantity. */
    function Worth(quantity: real): real
      requires Ready()
    {
      Product(quantity, Unit())
    }

    /** USDT value of one lot. */
    function LotValue(): (v: real)
      requires Ready()
      ensures v > 0.0
    {
      MulPos(Step(), Unit());
      Worth(Step())
    }

    /** A booked position has a side, a positive quantity and the notional of that quantity. */
    predicate Booked(position: Option<Position>)
      requires Ready()
    {
      position.Some? ==>
        && position.value.side != Flat
        && position.value.quantity > 0.0
        && position.value.notional == Worth(position.value.quantity)
    }

    /** Signed notional of a position. */
    function Value(position: Option<Position>): real
      requires Ready()
    {
      Worth(Signed(position))
    }
  }

  /** The quantity is a whole number of lots. */
  ghost predicate Aligned(step: real, quantity: real) {
    exists k: int :: IsLots(step, quantity, k)
  }

  ghost predicate IsLots(step: real, quantity: real, k: int) {
    quantity == Times(k, step)
  }

  // ----- Arithmetic -----

  lemma MulPos(x: real, y: real)
    requires x > 0.0 && y > 0.0
    ensures Product(x, y) > 0.0
  {}

  lemma MulMono(x: real, y: real, z: real)
    requires x <= y && z > 0.0
    ensures Product(x, z) <= Product(y, z)
    ensures x < y ==> Product(x, z) < Product(y, z)
  {}

  lemma MulAdd(x: real, y: real, z: real)
    ensures Product(x + y, z) == Product(x, z) + Product(y, z)
    ensures Product(-x, z) == -Product(x, z)
    ensures Product(0.0, z) == 0.0
  {}

  lemma DivMul(x: real, y: real)
    requires y > 0.0
    ensures Product(x / y, y) == x
    ensures x >= 0.0 ==> x / y >= 0.0
  {}

  lemma MulNext(x: real, y: real)
    ensures Product(x + 1.0, y) == Product(x, y) + y
  {}

  /** Counting whole steps of `s` in a magnitude `a` brackets `a` within one step. */
  lemma FloorBracket(a: real, s: real, n: int)
    requires a >= 0.0 && s > 0.0 && n == (a / s).Floor
    ensures 0 <= n
    ensures 0.0 <= Times(n, s) <= a < Times(n, s) + s
  {
    var x, m := a / s, n as real;
    DivMul(a, s);
    assert x < m + 1.0;
    assert 0 <= n;
    MulMono(0.0, m, s);
    MulMono(m, x, s);
    MulMono(x, m + 1.0, s);
    assert Product(x, s) < Product(m + 1.0, s);
    MulNext(m, s);
    assert a < Product(m, s) + s;
  }

  lemma LotsNonNegative(i: Instrument, q: real)
    requires i.quantityStep > 0.0
    ensures 0 <= i.Lots(q)
    ensures IsLots(i.quantityStep, i.RoundDown(q), i.Lots(q))
  {
    FloorBracket(Abs(q), i.quantityStep, i.Lots(q));
  }

  lemma TimesMono(j: int, k: int, step: real)
    requires step > 0.0
    ensures j <= k ==> Times(j, step) <= Times(k, step)
    ensures j < k ==> Times(j, step) + step <= Times(k, step)
  {
    if j < k {
      MulMono(j as real + 1.0, k as real, step);
      MulNext(j as real, step);
    }
  }

  /** The floored quantity is the largest whole number of lots not above the magnitude of the quantity. */
  lemma FloorIsGreatestMultiple(i: Instrument, q: real, k: int)
    requires i.quantityStep > 0.0
    ensures Times(k, i.quantityStep) <= Abs(q) <==> Times(k, i.quantityStep) <= i.RoundDown(q)
    ensures Times(k, i.quantityStep) <= Abs(q) <==> k <= i.Lots(q)
  {
    hide Times, Instrument.Lots;
    TimesMono(i.Lots(q), k, i.quantityStep);
    TimesMono(k, i.Lots(q), i.quantityStep);
  }

  /** Whole lots are left alone. */
  lemma FloorKeepsLots(i: Instrument, q: real, k: nat)
    requires i.quantityStep > 0.0
    requires IsLots(i.quantityStep, q, k)
    ensures i.Lots(q) == k && i.RoundDown(q) == q
  {
    TimesMono(0, k, i.quantityStep);
    hide Times, Instrument.Lots;
    FloorIsGreatestMultiple(i, q, k);
    FloorIsGreatestMultiple(i, q, i.Lots(q));
    TimesMono(k, i.Lots(q), i.quantityStep);
  }

  lemma FloorIdempotent(i: Instrument, q: real)
    requires i.quantityStep > 0.0
    ensures i.RoundDown(i.RoundDown(q)) == i.RoundDown(q)
  {
    LotsNonNegative(i, q);
    FloorKeepsLots(i, i.RoundDown(q), i.Lots(q));
  }

  lemma FloorMonotone(i: Instrument, p: real, q: real)
    requires i.quantityStep > 0.0
    requires Abs(p) <= Abs(q)
    ensures i.RoundDown(p) <= i.RoundDown(q)
  {
    LotsNonNegative(i, p);
    FloorIsGreatestMultiple(i, q, i.Lots(p));
  }

  /**
    An order can be sized exactly if price, step and contract size are positive; then it is never oversized and loses
    less than one lot.
  */
  lemma NotionalRoundTrip(i: Instrument, notional: real, price: real)
    ensures
      var sized := i.QuantityForNotional(notional, price);
      && (sized.Ok? <==> price > 0.0 && i.quantityStep > 0.0 && i.BasePerQuantity() > 0.0)
      && (sized.Err? ==> sized.error == ValueError)
      && (sized.Ok? ==>
            var back := i.NotionalForQuantity(sized.value, price);
            Abs(notional) - price * i.BasePerQuantity() * i.quantityStep < back <= Abs(notional))
  {
    if price > 0.0 && i.quantityStep > 0.0 && i.BasePerQuantity() > 0.0 {
      var u := i.UnitValue(price);
      MulPos(price, i.BasePerQuantity());
      assert price * i.BasePerQuantity() * i.quantityStep == Product(i.quantityStep, u);
      hide Product, Instrument.RoundDown, Instrument.UnitValue;
      var raw := Abs(notional) / u;
      var q := i.RoundDown(raw);
      DivMul(Abs(notional), u);
      MulMono(q, raw, u);
      MulMono(raw, q + i.quantityStep, u);
      MulAdd(q, i.quantityStep, u);
    }
  }

  /** The value of a position is linear in its signed quantity and keeps its sign. */
  lemma WorthLaws(m: Market, p: real, q: real)
    requires m.Ready()
    ensures m.Worth(p + q) == m.Worth(p) + m.Worth(q)
    ensures m.Worth(-p) == -m.Worth(p)
    ensures m.Worth(0.0) == 0.0
    ensures p <= q <==> m.Worth(p) <= m.Worth(q)
    ensures p < q <==> m.Worth(p) < m.Worth(q)
  {
    hide Product;
    MulAdd(p, q, m.Unit());
    if p <= q {
      MulMono(p, q, m.Unit());
    } else {
      MulMono(q, p, m.Unit());
    }
  }

  lemma AlignedSum(step: real, p: real, q: real)
    requires Aligned(step, p) && Aligned(step, q)
    ensures Aligned(step, p + q)
    ensures Aligned(step, -p)
  {
    var j :| IsLots(step, p, j);
    var k :| IsLots(step, q, k);
    assert IsLots(step, p + q, j + k);
    assert IsLots(step, -p, -j);
  }
}
