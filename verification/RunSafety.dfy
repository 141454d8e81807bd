/**
  What every run keeps, for every exchange script, every interference by other symbols and every retry
  count: no overshoot, no oscillation, flips only through flat, one order per step, conservation.
*/
module RunSafety {
  import opened Wrappers
  import opened Models
  import opened Exchange
  import opened Executor
  import opened Reconciler
  import opened Motion
  import opened RunResults

  /** The target asks for no position. */
  predicate WantsFlat(t: Target) {
    t.side == Flat || t.notional <= 0.0
  }

  /** One closing order and then only increasing ones. */
  ghost predicate FlipShape(submissions: seq<Submission>) {
    submissions != [] && AllFor(submissions[..1], Closing) && AllFor(submissions[1..], Increasing)
  }

  /** Which orders an action may submit. */
  ghost predicate Legs(action: Action, submissions: seq<Submission>) {
    match action
    case Open => |submissions| <= 1 && AllFor(submissions, Increasing)
    case Add => |submissions| <= 1 && AllFor(submissions, Increasing)
    case Reduce => |submissions| <= 1 && AllFor(submissions, Reducing)
    case Close => |submissions| <= 1 && AllFor(submissions, Closing)
    case Flip => |submissions| <= 2 && (submissions == [] || FlipShape(submissions))
    case _ => submissions == []
  }

  /** Every order got an answer the caller could use, and filled. */
  ghost predicate AllLanded(e: Env, submissions: seq<Submission>) {
    forall k :: 0 <= k < |submissions| ==>
      submissions[k].fill != 0.0 && Acknowledges(e.script(submissions[k].request.clientOrderId))
  }

  ghost predicate LandedButLast(e: Env, submissions: seq<Submission>) {
    submissions != [] ==> AllLanded(e, submissions[..|submissions| - 1])
  }

  /** Where a successful action may leave the position: on the way up, on the way down, or on the way to flat. */
  ghost predicate Arrived(m: Market, t: Target, action: Action, position: Option<Position>)
    requires m.Ready()
  {
    match action
    case Close => WantsFlat(t)
    case Reduce => !WantsFlat(t) && t.notional <= Along(m, t.side, position)
    case _ => !WantsFlat(t) && 0.0 <= Along(m, t.side, position) <= t.notional
  }

  ghost predicate Moved(e: Env, t: Target, action: Action, position: Option<Position>, effect: ActionEffect, n: nat,
                        dryRun: bool)
    requires e.market.Ready()
  {
    && Journey(e.market, t, position, effect.submissions, effect.position)
    && Legs(action, effect.submissions)
    && (action == Reduce && effect.submissions != [] ==> t.notional < Along(e.market, t.side, position))
    && Numbered(effect.submissions, e.firstOrder + n)
    && LandedButLast(e, effect.submissions)
    && (dryRun ==> effect.submissions == [] && effect.position == position)
    && (effect.outcome.Orders? && !dryRun ==>
          effect.submissions != [] && AllLanded(e, effect.submissions) && Arrived(e.market, t, action, effect.position))
  }

  lemma DryRunSubmitsNothing(m: Market, t: Target, position: Option<Position>, notional: real, reduceOnly: bool, k: nat,
                             r: Response)
    ensures m.instrument.Some? ==>
      var effect := ExecuteDelta(true, m, m.instrument.value, t, position, position, notional, reduceOnly, k, r);
      effect.submissions == [] && effect.position == position
    ensures position.Some? ==>
      var effect := ExecuteClose(true, m, t, position.value, position, k, r);
      effect.submissions == [] && effect.position == position
  {
    hide DeltaQuantity, CloseQuantity;
  }

  /** Moving along the target's side without passing it, or coming back down to it, approaches the goal. */
  lemma AlongApproaches(m: Market, t: Target, s: Submission)
    requires m.Ready() && !WantsFlat(t)
    requires
      var from, to := Along(m, t.side, s.before), Along(m, t.side, s.after);
      0.0 <= from <= to <= t.notional || t.notional <= to <= from || from <= to <= 0.0
    ensures Approaches(m, t, s)
  {
    hide Market.Value;
  }

  lemma TowardFlatApproaches(m: Market, t: Target, side: PositionSide, s: Submission)
    requires m.Ready() && WantsFlat(t)
    requires 0.0 <= Along(m, side, s.after) <= Along(m, side, s.before)
    ensures Approaches(m, t, s)
  {
    hide Market.Value;
  }

  /** An action that submits nothing and yields no receipt, or only a dry-run one. */
  lemma NothingMoved(e: Env, t: Target, action: Action, position: Option<Position>, outcome: ActionOutcome, n: nat,
                     dryRun: bool)
    requires e.market.Ready() && e.market.Booked(position)
    requires outcome.Orders? ==> dryRun
    ensures Moved(e, t, action, position, ActionEffect(position, [], outcome), n, dryRun)
  {
    hide Market.Booked, Along;
  }

  /** At most one order, which lands if there is a receipt. */
  lemma OneOrderMoved(e: Env, t: Target, action: Action, position: Option<Position>, effect: Effect, n: nat)
    requires e.market.Ready() && e.market.Booked(effect.position)
    requires |effect.submissions| <= 1 && Chained(effect.submissions, position, effect.position)
    requires Numbered(effect.submissions, e.firstOrder + n) && Legs(action, effect.submissions)
    requires forall s :: s in effect.submissions ==> WellBehaved(e.market, s)
    requires effect.submissions != [] ==> Approaches(e.market, t, effect.submissions[0])
    requires action == Reduce && effect.submissions != [] ==> t.notional < Along(e.market, t.side, position)
    requires effect.outcome.Ok? ==>
      Landed(effect.submissions, e.script(e.firstOrder + n)) && Arrived(e.market, t, action, effect.position)
    ensures Moved(e, t, action, position, Receipt(effect), n, false)
  {
    hide Market.Booked, WellBehaved, Approaches, Along, Arrived, Legs;
  }

  lemma IncreaseMoved(e: Env, t: Target, action: Action, position: Option<Position>, notional: real, n: nat)
    requires action in {Open, Add}
    requires e.market.Ready() && e.market.Booked(position) && !WantsFlat(t)
    requires 0.0 <= notional && 0.0 <= Along(e.market, t.side, position)
    requires Along(e.market, t.side, position) + notional <= t.notional
    ensures
      var k := e.firstOrder + n;
      var effect := ExecuteDelta(false, e.market, e.market.instrument.value, t, position, position, notional, false, k,
                                 e.script(k));
      Moved(e, t, action, position, Receipt(effect), n, false)
  {
    var k := e.firstOrder + n;
    IncreaseMoves(e.market, t, position, notional, k, e.script(k));
    var effect := ExecuteDelta(false, e.market, e.market.instrument.value, t, position, position, notional, false, k,
                               e.script(k));
    hide Product, ExecuteDelta, Market.Booked, Along, WellBehaved, Approaches, Moved, Landed, Numbered, AllFor;
    if effect.submissions != [] {
      AlongApproaches(e.market, t, effect.submissions[0]);
    }
    OneOrderMoved(e, t, action, position, effect, n);
  }

  lemma ReduceMoved(e: Env, t: Target, position: Position, notional: real, n: nat)
    requires e.market.Ready() && e.market.Booked(Some(position)) && !WantsFlat(t) && position.side == t.side
    requires 0.0 <= notional && t.notional <= Along(e.market, t.side, Some(position)) - notional
    ensures
      var k := e.firstOrder + n;
      var p := Some(position);
      var effect := ExecuteDelta(false, e.market, e.market.instrument.value, t, p, p, notional, true, k, e.script(k));
      Moved(e, t, Reduce, p, Receipt(effect), n, false)
  {
    var k := e.firstOrder + n;
    ReduceMoves(e.market, t, position, notional, k, e.script(k));
    var p := Some(position);
    var effect := ExecuteDelta(false, e.market, e.market.instrument.value, t, p, p, notional, true, k, e.script(k));
    hide Product, ExecuteDelta, Market.Booked, Along, WellBehaved, Approaches, Moved, Landed, Numbered, AllFor;
    if effect.submissions != [] {
      AlongApproaches(e.market, t, effect.submissions[0]);
    }
    OneOrderMoved(e, t, Reduce, p, effect, n);
  }

  lemma CloseMoved(e: Env, t: Target, position: Position, n: nat)
    requires e.market.Ready() && e.market.Booked(Some(position)) && WantsFlat(t)
    ensures
      var k := e.firstOrder + n;
      var effect := ExecuteClose(false, e.market, t, position, Some(position), k, e.script(k));
      Moved(e, t, Close, Some(position), Receipt(effect), n, false)
  {
    var k := e.firstOrder + n;
    CloseMoves(e.market, t, position, k, e.script(k));
    var effect := ExecuteClose(false, e.market, t, position, Some(position), k, e.script(k));
    hide Product, ExecuteClose, Market.Booked, Along, WellBehaved, Approaches, Moved, Landed, Numbered, AllFor;
    if effect.submissions != [] {
      TowardFlatApproaches(e.market, t, position.side, effect.submissions[0]);
    }
    OneOrderMoved(e, t, Close, Some(position), effect, n);
  }

  lemma CloseActionMoves(c: Settings, e: Env, t: Target, position: Option<Position>, attempt: nat, n: nat)
    requires e.market.Ready() && e.market.Booked(position)
    requires Classify(c, t, position) == Close
    ensures Moved(e, t, Close, position, CloseAction(c, e, t, position, attempt, n), n, c.dryRun)
  {
    hide Moved, ExecuteClose, Risk.Check, Market.Booked;
    var k := e.firstOrder + n;
    var effect := CloseAction(c, e, t, position, attempt, n);
    if c.dryRun {
      DryRunSubmitsNothing(e.market, t, position, 0.0, false, k, e.script(k));
    } else {
      CloseMoved(e, t, position.value, n);
    }
    if effect.submissions == [] && effect.position == position && (effect.outcome.Orders? ==> c.dryRun) {
      NothingMoved(e, t, Close, position, effect.outcome, n, c.dryRun);
    }
  }

  /** What the classification says about the exposure along the target's side. */
  lemma ClassifyMeans(c: Settings, m: Market, t: Target, position: Option<Position>)
    requires m.Ready() && m.Booked(position)
    ensures
      var along := Along(m, t.side, position);
      match Classify(c, t, position)
      case Open => !WantsFlat(t) && position.None? && along == 0.0
      case Add => !WantsFlat(t) && position.Some? && position.value.side == t.side && 0.0 < along < t.notional
      case Reduce => !WantsFlat(t) && position.Some? && position.value.side == t.side && t.notional <= along
      case Flip => !WantsFlat(t) && position.Some? && position.value.side != t.side && along < 0.0
      case Close => WantsFlat(t) && position.Some?
      case _ => true
    ensures position.Some? && position.value.side == t.side ==>
      position.value.AbsNotional() == Along(m, t.side, position)
  {
    SideMatchesValue(m, position);
    hide Product, Market.Booked, Market.Value, Tolerance;
  }

  lemma DeltaActionMoves(c: Settings, e: Env, t: Target, position: Option<Position>, attempt: nat, n: nat)
    requires e.market.Ready() && e.market.Booked(position)
    requires Classify(c, t, position) in {Open, Add, Reduce}
    ensures
      var action := Classify(c, t, position);
      Moved(e, t, action, position, DeltaAction(c, e, t, position, action, attempt, n), n, c.dryRun)
  {
    var action := Classify(c, t, position);
    var notional := OrderNotional(t, position);
    var k := e.firstOrder + n;
    ClassifyMeans(c, e.market, t, position);
    hide ExecuteDelta, Classify, Moved, Market.Booked, Risk.Check, Market.Value, BlockedResult;
    var effect := DeltaAction(c, e, t, position, action, attempt, n);
    if effect.submissions == [] && effect.position == position && (effect.outcome.Orders? ==> c.dryRun) {
      NothingMoved(e, t, action, position, effect.outcome, n, c.dryRun);
    } else if c.dryRun {
      DryRunSubmitsNothing(e.market, t, position, notional, action == Reduce, k, e.script(k));
    } else if action == Reduce {
      ReduceMoved(e, t, position.value, notional, n);
    } else {
      IncreaseMoved(e, t, action, position, notional, n);
    }
  }

  lemma JourneyAppend(m: Market, t: Target, from: Option<Position>, first: seq<Submission>, mid: Option<Position>,
                      second: seq<Submission>, to: Option<Position>)
    requires m.Ready() && Journey(m, t, from, first, mid) && Journey(m, t, mid, second, to)
    ensures Journey(m, t, from, first + second, to)
  {
    hide Market.Booked, WellBehaved, Approaches;
  }

  /** The first half of a flip ends on the old side or flat. */
  ghost predicate HalfFlipped(e: Env, t: Target, position: Option<Position>, closed: Effect, k: nat)
    requires e.market.Ready()
  {
    && Journey(e.market, t, position, closed.submissions, closed.position)
    && |closed.submissions| <= 1 && AllFor(closed.submissions, Closing) && Numbered(closed.submissions, k)
    && (closed.outcome.Ok? ==> Landed(closed.submissions, e.script(k)))
  }

  lemma HalfFlip(e: Env, t: Target, position: Position, k: nat)
    requires e.market.Ready() && e.market.Booked(Some(position))
    requires !WantsFlat(t) && position.side != t.side
    ensures HalfFlipped(e, t, Some(position),
                        ExecuteClose(false, e.market, t, position, Some(position), k, e.script(k)), k)
  {
    CloseMoves(e.market, t, position, k, e.script(k));
    var closed := ExecuteClose(false, e.market, t, position, Some(position), k, e.script(k));
    if closed.submissions != [] {
      AlongApproaches(e.market, t, closed.submissions[0]);
    }
    hide ExecuteClose, Along, Approaches, WellBehaved, Market.Booked;
  }

  lemma StoppedAfterClose(e: Env, t: Target, position: Option<Position>, closed: Effect, outcome: ActionOutcome, n: nat)
    requires e.market.Ready() && HalfFlipped(e, t, position, closed, e.firstOrder + n)
    requires !outcome.Orders?
    ensures Moved(e, t, Flip, position, ActionEffect(closed.position, closed.submissions, outcome), n, false)
  {
    hide Journey;
    if closed.submissions != [] {
      assert closed.submissions[..1] == closed.submissions;
    }
  }

  lemma OpenAfterCloseMoves(c: Settings, e: Env, t: Target, position: Position, closed: Effect, attempt: nat, n: nat)
    requires e.market.Ready() && !WantsFlat(t) && !c.dryRun
    requires HalfFlipped(e, t, Some(position), closed, e.firstOrder + n) && closed.outcome.Ok?
    ensures Moved(e, t, Flip, Some(position), OpenAfterClose(c, e, t, position, closed, attempt, n), n, false)
  {
    hide ExecuteDelta, Moved, Risk.Check, HalfFlipped, WantsFlat, Position.AbsNotional;
    var effect := OpenAfterClose(c, e, t, position, closed, attempt, n);
    var check := Risk.Check(c.risk, t, None, e.Portfolio(2 * attempt + 1, t.symbol, None), Open, t.notional);
    if closed.position.Some? || check.Blocked? {
      StoppedAfterClose(e, t, Some(position), closed, effect.outcome, n);
    } else {
      OpenedAfterClose(e, t, Some(position), closed, n);
    }
  }

  lemma OpenedAfterClose(e: Env, t: Target, position: Option<Position>, closed: Effect, n: nat)
    requires e.market.Ready() && !WantsFlat(t)
    requires HalfFlipped(e, t, position, closed, e.firstOrder + n)
    requires closed.outcome.Ok? && closed.position.None?
    ensures
      var k := e.firstOrder + n + |closed.submissions|;
      var second := ExecuteDelta(false, e.market, e.market.instrument.value, t, None, None, t.notional, false, k,
                                 e.script(k));
      var outcome :=
        match second.outcome case Ok(r) => Orders([closed.outcome.value, r]) case Err(error) => Raises(error);
      Moved(e, t, Flip, position, ActionEffect(second.position, closed.submissions + second.submissions, outcome), n,
            false)
  {
    assert |closed.submissions| == 1;
    hide ExecuteDelta, Moved, HalfFlipped, Market.Booked;
    var second := OpenFromFlat(e, t, n + 1);
    FlippedAfterClose(e, t, position, closed, second, n);
  }

  lemma OpenFromFlat(e: Env, t: Target, n: nat) returns (effect: Effect)
    requires e.market.Ready() && !WantsFlat(t)
    ensures
      var k := e.firstOrder + n;
      effect == ExecuteDelta(false, e.market, e.market.instrument.value, t, None, None, t.notional, false, k,
                             e.script(k))
    ensures Moved(e, t, Open, None, Receipt(effect), n, false)
  {
    var k := e.firstOrder + n;
    SideMatchesValue(e.market, None);
    IncreaseMoved(e, t, Open, None, t.notional, n);
    effect := ExecuteDelta(false, e.market, e.market.instrument.value, t, None, None, t.notional, false, k,
                           e.script(k));
  }

  lemma FlippedAfterClose(e: Env, t: Target, position: Option<Position>, closed: Effect, second: Effect, n: nat)
    requires e.market.Ready() && HalfFlipped(e, t, position, closed, e.firstOrder + n)
    requires closed.outcome.Ok? && closed.position.None?
    requires Moved(e, t, Open, None, Receipt(second), n + 1, false)
    ensures
      var outcome :=
        match second.outcome case Ok(r) => Orders([closed.outcome.value, r]) case Err(error) => Raises(error);
      Moved(e, t, Flip, position, ActionEffect(second.position, closed.submissions + second.submissions, outcome), n,
            false)
  {
    JourneyAppend(e.market, t, position, closed.submissions, None, second.submissions, second.position);
    LandedAppend(e, closed.submissions, second.submissions);
    var all := closed.submissions + second.submissions;
    assert all[..1] == closed.submissions;
    assert all[1..] == second.submissions;
    assert all != [];
    hide Journey, Along;
  }

  lemma FlipActionMoves(c: Settings, e: Env, t: Target, position: Option<Position>, attempt: nat, n: nat)
    requires e.market.Ready() && e.market.Booked(position)
    requires Classify(c, t, position) == Flip
    ensures Moved(e, t, Flip, position, FlipAction(c, e, t, position, attempt, n), n, c.dryRun)
  {
    ClassifyMeans(c, e.market, t, position);
    hide Moved, FlipAction, Classify, Market.Booked, Along, Risk.Check, Position.AbsNotional;
    var check := Risk.Check(c.risk, t, position, e.Portfolio(2 * attempt, t.symbol, position), Close,
                            position.value.AbsNotional());
    if check.Blocked? || c.dryRun {
      FlipStaysPut(c, e, t, position.value, attempt, n);
    } else {
      FlipProceeds(c, e, t, position.value, attempt, n);
    }
  }

  /** A flip that is blocked, or only a dry run. */
  lemma FlipStaysPut(c: Settings, e: Env, t: Target, position: Position, attempt: nat, n: nat)
    requires e.market.Ready() && e.market.Booked(Some(position))
    requires
      || c.dryRun
      || Risk.Check(c.risk, t, Some(position), e.Portfolio(2 * attempt, t.symbol, Some(position)), Close,
                    position.AbsNotional()).Blocked?
    ensures Moved(e, t, Flip, Some(position), FlipAction(c, e, t, Some(position), attempt, n), n, c.dryRun)
  {
    hide Moved, ExecuteClose, OpenAfterClose, Market.Booked, Risk.Check, BlockedResult, Position.AbsNotional;
    var k := e.firstOrder + n;
    DryRunSubmitsNothing(e.market, t, Some(position), 0.0, false, k, e.script(k));
    NothingMoved(e, t, Flip, Some(position), FlipAction(c, e, t, Some(position), attempt, n).outcome, n, c.dryRun);
  }

  lemma FlipProceeds(c: Settings, e: Env, t: Target, position: Position, attempt: nat, n: nat)
    requires e.market.Ready() && e.market.Booked(Some(position))
    requires !WantsFlat(t) && position.side != t.side && !c.dryRun
    requires
      Risk.Check(c.risk, t, Some(position), e.Portfolio(2 * attempt, t.symbol, Some(position)), Close,
                 position.AbsNotional()).Allowed?
    ensures Moved(e, t, Flip, Some(position), FlipAction(c, e, t, Some(position), attempt, n), n, false)
  {
    hide Moved, HalfFlipped, ExecuteClose, OpenAfterClose, Market.Booked, Risk.Check, Position.AbsNotional, WantsFlat;
    var k := e.firstOrder + n;
    HalfFlip(e, t, position, k);
    var closed := ExecuteClose(false, e.market, t, position, Some(position), k, e.script(k));
    match closed.outcome {
      case Ok(_) =>
        OpenAfterCloseMoves(c, e, t, position, closed, attempt, n);
      case Err(error) =>
        StoppedAfterClose(e, t, Some(position), closed, Raises(error), n);
    }
  }

  lemma ActionMoves(c: Settings, e: Env, t: Target, position: Option<Position>, attempt: nat, n: nat)
    requires e.market.Ready() && e.market.Booked(position)
    requires Classify(c, t, position) != Noop
    ensures Moved(e, t, Classify(c, t, position), position, ExecuteAction(c, e, t, position, attempt, n), n, c.dryRun)
  {
    match Classify(c, t, position)
    case Flip => FlipActionMoves(c, e, t, position, attempt, n); hide Moved, FlipAction;
    case Close => CloseActionMoves(c, e, t, position, attempt, n); hide Moved, CloseAction;
    case _ => DeltaActionMoves(c, e, t, position, attempt, n); hide Moved, DeltaAction;
  }

  // ----- Whole runs -----

  /** A run only closes, only reduces, only increases, or closes once and then increases. */
  ghost predicate Shape(submissions: seq<Submission>) {
    || AllFor(submissions, Closing)
    || AllFor(submissions, Reducing)
    || AllFor(submissions, Increasing)
    || FlipShape(submissions)
  }

  /** Which kind of run is under way after some orders, and on which side of the target it is. */
  ghost predicate Staged(m: Market, t: Target, submissions: seq<Submission>, position: Option<Position>, attempt: nat)
    requires m.Ready()
  {
    var along := Along(m, t.side, position);
    || submissions == []
    || (WantsFlat(t) && AllFor(submissions, Closing) && |submissions| <= attempt)
    || (!WantsFlat(t) && t.notional <= along && AllFor(submissions, Reducing) && |submissions| <= attempt)
    || (!WantsFlat(t) && 0.0 <= along <= t.notional && AllFor(submissions, Increasing) && |submissions| <= attempt)
    || (&& !WantsFlat(t) && 0.0 <= along <= t.notional
        && FlipShape(submissions) && 1 <= attempt && |submissions| <= attempt + 1)
  }

  ghost predicate Underway(e: Env, t: Target, initial: Option<Position>,
                           submissions: seq<Submission>, position: Option<Position>, attempt: nat)
    requires e.market.Ready()
  {
    && Journey(e.market, t, initial, submissions, position)
    && Numbered(submissions, e.firstOrder)
    && AllLanded(e, submissions)
    && Staged(e.market, t, submissions, position, attempt)
  }

  /** The guarantees of a finished run. */
  ghost predicate Safe(c: Settings, e: Env, t: Target, initial: Option<Position>,
                       submissions: seq<Submission>, position: Option<Position>)
    requires e.market.Ready()
  {
    && Journey(e.market, t, initial, submissions, position)
    && Shape(submissions)
    && Numbered(submissions, e.firstOrder)
    && LandedButLast(e, submissions)
    && (|| submissions == [] || |submissions| <= c.maxRetries + 1
        || (FlipShape(submissions) && 0 <= c.maxRetries && |submissions| <= c.maxRetries + 2))
  }

  lemma StagedAppend(c: Settings, e: Env, t: Target, s: State, effect: ActionEffect, attempt: nat)
    requires e.market.Ready() && e.market.Booked(s.position)
    requires Staged(e.market, t, s.submissions, s.position, attempt)
    requires Classify(c, t, s.position) != Noop
    requires Moved(e, t, Classify(c, t, s.position), s.position, effect, |s.submissions|, c.dryRun)
    ensures
      var all := s.submissions + effect.submissions;
      && Shape(all)
      && (all == [] || |all| <= attempt + 1 || (FlipShape(all) && |all| <= attempt + 2))
      && (effect.outcome.Orders? && !c.dryRun ==> Staged(e.market, t, all, effect.position, attempt + 1))
  {
    var all := s.submissions + effect.submissions;
    ClassifyMeans(c, e.market, t, s.position);
    ShapeAppend(s.submissions, effect.submissions);
    hide Classify, Along, Journey, Market.Booked, Numbered, AllLanded, AllFor, FlipShape;
    if s.submissions == [] {
      assert all == effect.submissions;
    } else if effect.submissions == [] {
      assert all == s.submissions;
    }
  }

  lemma ShapeAppend(first: seq<Submission>, second: seq<Submission>)
    ensures forall purpose :: AllFor(first, purpose) && AllFor(second, purpose) ==> AllFor(first + second, purpose)
    ensures FlipShape(first) && AllFor(second, Increasing) ==> FlipShape(first + second)
  {
    var all := first + second;
    if first != [] {
      assert all[..1] == first[..1];
      assert all[1..] == first[1..] + second;
    }
  }

  lemma UnderwayIsSafe(c: Settings, e: Env, t: Target, initial: Option<Position>,
                       submissions: seq<Submission>, position: Option<Position>, attempt: nat)
    requires e.market.Ready() && Underway(e, t, initial, submissions, position, attempt)
    requires attempt == 0 || attempt <= c.maxRetries + 1
    ensures Safe(c, e, t, initial, submissions, position)
  {
    hide Journey, Along;
  }

  lemma ActionSafe(c: Settings, e: Env, t: Target, initial: Option<Position>, s: State, effect: ActionEffect,
                   attempt: nat)
    requires e.market.Ready() && Underway(e, t, initial, s.submissions, s.position, attempt)
    requires attempt <= c.maxRetries && Classify(c, t, s.position) != Noop
    requires Moved(e, t, Classify(c, t, s.position), s.position, effect, |s.submissions|, c.dryRun)
    ensures
      var all := s.submissions + effect.submissions;
      && Safe(c, e, t, initial, all, effect.position)
      && (effect.outcome.Orders? && !c.dryRun ==> Underway(e, t, initial, all, effect.position, attempt + 1))
  {
    hide Staged, Shape, AllLanded, FlipShape, Classify, Legs, LandedButLast, Arrived, Market.Booked, Chained;
    assert e.market.Booked(s.position);
    hide Journey;
    StagedAppend(c, e, t, s, effect, attempt);
    JourneyAppend(e.market, t, initial, s.submissions, s.position, effect.submissions, effect.position);
    LandedAppend(e, s.submissions, effect.submissions);
  }

  lemma AttemptSafe(c: Settings, e: Env, t: Target, initial: Option<Position>, s: State, attempt: nat)
    requires e.market.Ready() && Underway(e, t, initial, s.submissions, s.position, attempt)
    requires attempt <= c.maxRetries
    ensures
      match Attempt(c, e, t, initial, s, attempt)
      case Done(run) => Safe(c, e, t, initial, run.submissions, run.position)
      case Continue(next) => Underway(e, t, initial, next.submissions, next.position, attempt + 1)
  {
    hide ExecuteAction, Safe, Classify, Suppresses, Moved, StartCooldown, AbsNotionalOf, ClassifyExecuted, Numbered;
    hide AllLanded, Staged;
    UnderwayIsSafe(c, e, t, initial, s.submissions, s.position, attempt);
    if Classify(c, t, s.position) != Noop {
      var n := |s.submissions|;
      ActionMoves(c, e, t, s.position, attempt, n);
      ActionSafe(c, e, t, initial, s, ExecuteAction(c, e, t, s.position, attempt, n), attempt);
    }
    hide Underway;
  }

  lemma LandedAppend(e: Env, first: seq<Submission>, second: seq<Submission>)
    requires AllLanded(e, first)
    ensures AllLanded(e, second) ==> AllLanded(e, first + second)
    ensures LandedButLast(e, second) ==> LandedButLast(e, first + second)
  {
    var all := first + second;
    if second != [] {
      assert all[..|all| - 1] == first + second[..|second| - 1];
    } else {
      assert all == first;
    }
  }

  lemma {:induction false} LoopSafe(c: Settings, e: Env, t: Target, initial: Option<Position>, s: State, attempt: nat)
    requires e.market.Ready() && Underway(e, t, initial, s.submissions, s.position, attempt)
    requires attempt == 0 || attempt <= c.maxRetries + 1
    ensures
      var run := Loop(c, e, t, initial, s, attempt);
      Safe(c, e, t, initial, run.submissions, run.position)
    decreases c.maxRetries + 1 - attempt
  {
    hide Attempt, Safe, Underway, Classify, ClassifyExecuted, AbsNotionalOf;
    if attempt > c.maxRetries {
      UnderwayIsSafe(c, e, t, initial, s.submissions, s.position, attempt);
    } else {
      AttemptSafe(c, e, t, initial, s, attempt);
      match Attempt(c, e, t, initial, s, attempt)
      case Done(_) =>
      case Continue(next) => LoopSafe(c, e, t, initial, next, attempt + 1);
    }
  }

  lemma StartsUnderway(e: Env, t: Target, position: Option<Position>)
    requires e.market.Ready() && e.market.Booked(position)
    ensures Underway(e, t, position, [], position, 0)
  {
    hide Along, Market.Booked;
  }

  /** Every run, against every script, interference, clock and cooldown entry, is safe. */
  lemma RunIsSafe(c: Settings, e: Env, t: Target, position: Option<Position>, cooldown: Option<FailureCooldown>)
    requires e.market.Ready() && e.market.Booked(position)
    ensures
      var run := Reconcile(c, e, t, position, cooldown);
      Safe(c, e, t, position, run.submissions, run.position)
  {
    hide Underway, Safe, Loop;
    StartsUnderway(e, t, position);
    LoopSafe(c, e, t, position, State(position, [], [], cooldown), 0);
  }

  lemma JourneyPrefix(m: Market, t: Target, from: Option<Position>, submissions: seq<Submission>, to: Option<Position>)
    requires m.Ready() && Journey(m, t, from, submissions, to) && submissions != []
    ensures
      var last := submissions[|submissions| - 1];
      && Journey(m, t, from, submissions[..|submissions| - 1], last.before)
      && last.after == to && WellBehaved(m, last) && Approaches(m, t, last)
      && last.before == (if |submissions| == 1 then from else submissions[|submissions| - 2].after)
  {
    var last := submissions[|submissions| - 1];
    assert last in submissions;
    assert WellBehaved(m, last);
    hide WellBehaved, Approaches, Market.Booked;
  }

  /**
    No overshoot: the run moves monotonically toward the target and stops at or before it, and none of its
    orders passes through flat.
  */
  lemma {:induction false} JourneyStopsAtGoal(m: Market, t: Target, from: Option<Position>,
                                              submissions: seq<Submission>, to: Option<Position>)
    requires m.Ready() && Journey(m, t, from, submissions, to)
    ensures m.Value(from) <= m.Value(to) <= Goal(t) || Goal(t) <= m.Value(to) <= m.Value(from) || to == from
    decreases |submissions|
  {
    if submissions != [] {
      JourneyPrefix(m, t, from, submissions, to);
      hide Journey, WellBehaved, Market.Value;
      var last := submissions[|submissions| - 1];
      JourneyStopsAtGoal(m, t, from, submissions[..|submissions| - 1], last.before);
    }
  }

  /** A journey that ends on the other side stood flat after one of its orders. */
  lemma {:induction false} SidesChangeThroughFlat(m: Market, t: Target, from: Option<Position>,
                                                  submissions: seq<Submission>, to: Option<Position>)
    requires m.Ready() && Journey(m, t, from, submissions, to)
    requires m.Value(from) < 0.0 < m.Value(to) || m.Value(to) < 0.0 < m.Value(from)
    ensures exists k :: 0 <= k < |submissions| && submissions[k].after == None
    decreases |submissions|
  {
    if submissions != [] {
      JourneyPrefix(m, t, from, submissions, to);
      var last := submissions[|submissions| - 1];
      SideMatchesValue(m, last.before);
      hide Journey, Market.Value;
      var front := submissions[..|submissions| - 1];
      if m.Value(last.before) == 0.0 {
        assert submissions[|submissions| - 2].after == None;
      } else {
        SidesChangeThroughFlat(m, t, from, front, last.before);
        var k :| 0 <= k < |front| && front[k].after == None;
        assert submissions[k].after == None;
      }
    }
  }

  ghost function SumFills(submissions: seq<Submission>): real {
    if submissions == [] then 0.0
    else SumFills(submissions[..|submissions| - 1]) + submissions[|submissions| - 1].fill
  }

  /** Conservation: the signed position changes by exactly the fills of the run, and whole lots stay whole lots. */
  lemma {:induction false} FillsAreConserved(m: Market, t: Target, from: Option<Position>, submissions: seq<Submission>,
                                             to: Option<Position>)
    requires m.Ready() && Journey(m, t, from, submissions, to)
    ensures Signed(to) == Signed(from) + SumFills(submissions)
    ensures Aligned(m.Step(), Signed(from)) ==> Aligned(m.Step(), Signed(to))
    decreases |submissions|
  {
    if submissions != [] {
      JourneyPrefix(m, t, from, submissions, to);
      hide Journey, Approaches, Market.Booked, Signed;
      var last := submissions[|submissions| - 1];
      FillsAreConserved(m, t, from, submissions[..|submissions| - 1], last.before);
    }
  }

  /** What one run does to the account, in the terms a caller can see. */
  lemma RunNeverOvershoots(c: Settings, e: Env, t: Target, position: Option<Position>,
                           cooldown: Option<FailureCooldown>)
    requires e.market.Ready() && e.market.Booked(position)
    ensures
      var run := Reconcile(c, e, t, position, cooldown);
      var from, to, goal := e.market.Value(position), e.market.Value(run.position), Goal(t);
      && (from <= to <= goal || goal <= to <= from || run.position == position)
      && (from < 0.0 < to || to < 0.0 < from ==>
            exists k :: 0 <= k < |run.submissions| && run.submissions[k].after == None)
      && Signed(run.position) == Signed(position) + SumFills(run.submissions)
      && (Aligned(e.market.Step(), Signed(position)) ==> Aligned(e.market.Step(), Signed(run.position)))
  {
    hide Reconcile, Journey, Market.Value, Goal;
    RunIsSafe(c, e, t, position, cooldown);
    var run := Reconcile(c, e, t, position, cooldown);
    JourneyStopsAtGoal(e.market, t, position, run.submissions, run.position);
    FillsAreConserved(e.market, t, position, run.submissions, run.position);
    var from, to := e.market.Value(position), e.market.Value(run.position);
    if from < 0.0 < to || to < 0.0 < from {
      SidesChangeThroughFlat(e.market, t, position, run.submissions, run.position);
    }
  }

  /** A run only ends well if every order of it landed. */
  ghost predicate SuccessLanded(e: Env, run: Run) {
    run.returned.Ok? && run.returned.value.success ==> AllLanded(e, run.submissions)
  }

  lemma AttemptLanded(c: Settings, e: Env, t: Target, initial: Option<Position>, s: State, attempt: nat)
    requires AllLanded(e, s.submissions)
    ensures
      match Attempt(c, e, t, initial, s, attempt)
      case Done(run) => SuccessLanded(e, run)
      case Continue(_) => true
  {
    hide SameFailureTarget, ClassifyExecuted, Error.IsPerpMirrorError, StartCooldown;
    if Classify(c, t, s.position) != Noop {
      var n := |s.submissions|;
      ActionReports(c, e, t, s.position, attempt, n);
      assert s.submissions + [] == s.submissions;
    }
    hide ExecuteAction, Classify, AbsNotionalOf, AllLanded;
  }

  lemma ExhaustedLanded(c: Settings, e: Env, t: Target, initial: Option<Position>, s: State, attempt: nat)
    requires e.market.Ready() && Underway(e, t, initial, s.submissions, s.position, attempt)
    ensures AllLanded(e, s.submissions) && SuccessLanded(e, Exhausted(c, t, initial, s))
  {
    hide Journey, Staged, Classify, ClassifyExecuted, AbsNotionalOf;
  }

  lemma {:induction false} LoopLanded(c: Settings, e: Env, t: Target, initial: Option<Position>, s: State, attempt: nat)
    requires e.market.Ready() && Underway(e, t, initial, s.submissions, s.position, attempt)
    ensures SuccessLanded(e, Loop(c, e, t, initial, s, attempt))
    decreases c.maxRetries + 1 - attempt
  {
    hide Attempt, Underway, Safe, AllLanded, SuccessLanded, Exhausted;
    ExhaustedLanded(c, e, t, initial, s, attempt);
    if attempt <= c.maxRetries {
      AttemptSafe(c, e, t, initial, s, attempt);
      AttemptLanded(c, e, t, initial, s, attempt);
      match Attempt(c, e, t, initial, s, attempt)
      case Done(_) =>
      case Continue(next) => LoopLanded(c, e, t, initial, next, attempt + 1);
    }
  }

  lemma RunLanded(c: Settings, e: Env, t: Target, position: Option<Position>, cooldown: Option<FailureCooldown>)
    requires e.market.Ready() && e.market.Booked(position)
    ensures SuccessLanded(e, Reconcile(c, e, t, position, cooldown))
  {
    hide Underway, Loop;
    StartsUnderway(e, t, position);
    LoopLanded(c, e, t, position, State(position, [], [], cooldown), 0);
  }

  /**
    Each order of a run is submitted once, under its own id. An order that was refused or whose state stays
    unknown is the last one, and such a run does not report success.
  */
  lemma UnlandedOrderEndsRun(c: Settings, e: Env, t: Target, position: Option<Position>,
                             cooldown: Option<FailureCooldown>, k: nat)
    requires e.market.Ready() && e.market.Booked(position)
    requires k < |Reconcile(c, e, t, position, cooldown).submissions|
    requires
      || !Acknowledges(e.script(e.firstOrder + k))
      || Reconcile(c, e, t, position, cooldown).submissions[k].fill == 0.0
    ensures
      var run := Reconcile(c, e, t, position, cooldown);
      && k == |run.submissions| - 1
      && !(run.returned.Ok? && run.returned.value.success)
      && forall j :: 0 <= j < |run.submissions| ==> run.submissions[j].request.clientOrderId == e.firstOrder + j
  {
    hide Reconcile, Journey, Shape, FlipShape, Acknowledges, Market.Booked;
    RunIsSafe(c, e, t, position, cooldown);
    RunLanded(c, e, t, position, cooldown);
    var run := Reconcile(c, e, t, position, cooldown);
    assert run.submissions[k].request.clientOrderId == e.firstOrder + k;
    var front := run.submissions[..|run.submissions| - 1];
    assert forall j :: 0 <= j < |front| ==> front[j] == run.submissions[j];
  }

  /** At most one order per attempt, and one more only in a run that flips. */
  lemma SubmissionsAreBounded(c: Settings, e: Env, t: Target, position: Option<Position>,
                              cooldown: Option<FailureCooldown>)
    requires e.market.Ready() && e.market.Booked(position)
    ensures
      var run := Reconcile(c, e, t, position, cooldown);
      && (c.maxRetries < 0 ==> run.submissions == [])
      && (c.maxRetries >= 0 ==> |run.submissions| <= c.maxRetries + 2)
      && (|run.submissions| == c.maxRetries + 2 && c.maxRetries >= 0 ==>
            run.submissions[0].request.purpose == Closing &&
            forall k :: 0 < k < |run.submissions| ==> run.submissions[k].request.purpose == Increasing)
  {
    hide Loop, Journey, LandedButLast, Numbered;
    RunIsSafe(c, e, t, position, cooldown);
    var run := Reconcile(c, e, t, position, cooldown);
    if FlipShape(run.submissions) {
      assert run.submissions[0] in run.submissions[..1];
      forall k | 0 < k < |run.submissions|
        ensures run.submissions[k].request.purpose == Increasing
      {
        assert run.submissions[k] == run.submissions[1..][k - 1];
      }
    }
  }
}
