/** How one action moves the position: every order is sound and heads for the target. */
module Motion {
  import opened Wrappers
  import opened Models
  import opened Exchange
  import opened Executor
  import opened Reconciler

  /** The signed notional a target asks for. */
  function Goal(t: Target): real {
    if t.side == Flat || t.notional <= 0.0 then 0.0
    else if t.side == Long then t.notional
    else -t.notional
  }

  /** The exposure of a position in the direction of a side. */
  function Along(m: Market, side: PositionSide, position: Option<Position>): real
    requires m.Ready()
  {
    if side == Long then m.Value(position) else -m.Value(position)
  }

  /** An order that moves from the old value toward the goal, stops at it, and does not pass through flat. */
  ghost predicate Approaches(m: Market, t: Target, s: Submission)
    requires m.Ready()
  {
    var from, to, goal := m.Value(s.before), m.Value(s.after), Goal(t);
    && (from <= to <= goal || goal <= to <= from)
    && !(from < 0.0 < to) && !(to < 0.0 < from)
  }

  /** Sound orders that lead from one booked position to another and approach the goal. */
  ghost predicate Journey(m: Market, t: Target, from: Option<Position>, submissions: seq<Submission>,
                          to: Option<Position>)
    requires m.Ready()
  {
    && m.Booked(to)
    && Chained(submissions, from, to)
    && forall s :: s in submissions ==> WellBehaved(m, s) && Approaches(m, t, s)
  }

  ghost predicate AllFor(submissions: seq<Submission>, purpose: Purpose) {
    forall s :: s in submissions ==> s.request.purpose == purpose && (s.request.reduceOnly <==> purpose != Increasing)
  }

  /** Fresh client order ids, one per submission. */
  ghost predicate Numbered(submissions: seq<Submission>, first: nat) {
    forall k :: 0 <= k < |submissions| ==> submissions[k].request.clientOrderId == first + k
  }

  /** Exactly one order, acknowledged and at least partly filled. */
  ghost predicate Landed(submissions: seq<Submission>, response: Response) {
    |submissions| == 1 && submissions[0].fill != 0.0 && Acknowledges(response)
  }

  lemma SideMatchesValue(m: Market, p: Option<Position>)
    requires m.Ready() && m.Booked(p)
    ensures p.None? ==> m.Value(p) == 0.0
    ensures p.Some? && p.value.side == Long ==> m.Value(p) == p.value.notional > 0.0
    ensures p.Some? && p.value.side == Short ==> -m.Value(p) == p.value.notional > 0.0
    ensures AbsNotionalOf(p) == Abs(m.Value(p))
  {
    hide Product;
    WorthLaws(m, 0.0, Signed(p));
    if p.Some? {
      WorthLaws(m, 0.0, p.value.quantity);
      WorthLaws(m, p.value.quantity, 0.0);
    }
  }

  /** OPEN and ADD move away from flat on the target's side by at most the notional asked for. */
  lemma IncreaseMoves(m: Market, t: Target, position: Option<Position>, notional: real, id: nat, response: Response)
    requires m.Ready() && m.Booked(position) && notional >= 0.0
    requires t.side != Flat
    ensures
      var effect := ExecuteDelta(false, m, m.instrument.value, t, position, position, notional, false, id, response);
      && |effect.submissions| <= 1 && (effect.outcome.Ok? ==> Landed(effect.submissions, response))
      && m.Booked(effect.position) && Chained(effect.submissions, position, effect.position)
      && AllFor(effect.submissions, Increasing) && Numbered(effect.submissions, id)
      && (forall s :: s in effect.submissions ==> WellBehaved(m, s) && m.Worth(s.request.quantity) <= notional)
      && Along(m, t.side, position) <= Along(m, t.side, effect.position) <= Along(m, t.side, position) + notional
  {
    DeltaQuantityFacts(m, position, notional, false);
    var quantity := DeltaQuantity(m.instrument.value, m.price, position, notional, false);
    if quantity.Ok? {
      var request := DeltaRequest(t, position, quantity.value, false, id);
      SubmitFacts(m, position, request, response);
      hide Product, DeltaQuantity, Submit, Market.Booked;
      var s := Submit(m, position, request, response).submissions[0];
      WorthLaws(m, Signed(s.before), s.fill);
      WorthLaws(m, s.fill, quantity.value);
      WorthLaws(m, -s.fill, quantity.value);
      WorthLaws(m, s.fill, 0.0);
    }
  }

  /** A reduce-only order on a position takes it toward flat, never past it. */
  lemma ReduceOnlyMoves(m: Market, position: Position, req: OrderRequest, response: Response)
    requires m.Ready() && m.Booked(Some(position))
    requires req.quantity >= 0.0 && req.reduceOnly && req.side == ReducingSide(position.side)
    ensures
      var effect := Submit(m, Some(position), req, response);
      0.0 <= Along(m, position.side, effect.position) <= Along(m, position.side, Some(position))
    ensures
      var effect := Submit(m, Some(position), req, response);
      Along(m, position.side, Some(position)) - m.Worth(req.quantity) <= Along(m, position.side, effect.position)
  {
    SubmitFacts(m, Some(position), req, response);
    hide Product, Submit, Market.Booked;
    var s := Submit(m, Some(position), req, response).submissions[0];
    WorthLaws(m, Signed(s.before), s.fill);
    WorthLaws(m, s.fill, req.quantity);
    WorthLaws(m, -s.fill, req.quantity);
    WorthLaws(m, Signed(s.after), Signed(s.before));
    WorthLaws(m, 0.0, Signed(s.after));
    WorthLaws(m, Signed(s.after), 0.0);
  }

  /** REDUCE takes the position toward flat by at most the notional asked for. */
  lemma ReduceMoves(m: Market, t: Target, position: Position, notional: real, id: nat, response: Response)
    requires m.Ready() && m.Booked(Some(position)) && notional >= 0.0
    ensures
      var p := Some(position);
      var effect := ExecuteDelta(false, m, m.instrument.value, t, p, p, notional, true, id, response);
      && |effect.submissions| <= 1 && (effect.outcome.Ok? ==> Landed(effect.submissions, response))
      && m.Booked(effect.position) && Chained(effect.submissions, p, effect.position)
      && AllFor(effect.submissions, Reducing) && Numbered(effect.submissions, id)
      && (forall s :: s in effect.submissions ==> WellBehaved(m, s))
      && 0.0 <= Along(m, position.side, effect.position) <= Along(m, position.side, p)
      && Along(m, position.side, p) - notional <= Along(m, position.side, effect.position)
      && (notional == 0.0 ==> effect.submissions == [])
  {
    var p := Some(position);
    SideMatchesValue(m, p);
    DeltaQuantityFacts(m, p, notional, true);
    var quantity := DeltaQuantity(m.instrument.value, m.price, p, notional, true);
    if quantity.Ok? {
      WorthLaws(m, 0.0, quantity.value);
      var request := DeltaRequest(t, p, quantity.value, true, id);
      SubmitFacts(m, p, request, response);
      ReduceOnlyMoves(m, position, request, response);
      hide Product, DeltaQuantity, Submit, Market.Booked, Along;
    }
  }

  /** CLOSE submits a positive part of the position, at most all of it, and takes it toward flat. */
  lemma CloseMoves(m: Market, t: Target, position: Position, id: nat, response: Response)
    requires m.Ready() && m.Booked(Some(position))
    ensures
      var p := Some(position);
      var effect := ExecuteClose(false, m, t, position, p, id, response);
      && |effect.submissions| <= 1 && (effect.outcome.Ok? ==> Landed(effect.submissions, response))
      && m.Booked(effect.position) && Chained(effect.submissions, p, effect.position)
      && AllFor(effect.submissions, Closing) && Numbered(effect.submissions, id)
      && (forall s :: s in effect.submissions ==> WellBehaved(m, s) && 0.0 < s.request.quantity <= position.quantity)
      && 0.0 <= Along(m, position.side, effect.position) <= Along(m, position.side, p)
  {
    var p := Some(position);
    SideMatchesValue(m, p);
    var quantity := CloseQuantity(m.instrument, position.quantity);
    if quantity.Ok? {
      var request := CloseRequest(t, position, quantity.value, id);
      hide Instrument.RoundDown;
      SubmitFacts(m, p, request, response);
      ReduceOnlyMoves(m, position, request, response);
      hide Product, CloseQuantity, Submit, Market.Booked, Along;
    }
  }
}
