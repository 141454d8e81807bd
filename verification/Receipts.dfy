/**
  What the receipts of a run say about its orders (perpmirror/copy/reconciler.py,
  perpmirror/execution/executor.py).
*/
module Receipts {
  import opened Wrappers
  import opened Models
  import opened Exchange
  import opened Executor
  import opened Reconciler
  import opened Motion
  import opened RunSafety
  import opened RunResults
  import Risk

  /** One receipt per order, with its id and exactly what it filled. */
  ghost predicate Matches(receipts: seq<OrderResult>, submissions: seq<Submission>) {
    && |receipts| == |submissions|
    && forall k :: 0 <= k < |receipts| ==>
         && receipts[k].clientOrderId == submissions[k].request.clientOrderId
         && receipts[k].filledQuantity == Abs(submissions[k].fill)
  }

  lemma MatchesAppend(first: seq<OrderResult>, second: seq<OrderResult>, before: seq<Submission>,
                      after: seq<Submission>)
    requires Matches(first, before) && Matches(second, after)
    ensures Matches(first + second, before + after)
  {}

  lemma ReceiptOfOrder(m: Market, position: Option<Position>, req: OrderRequest, response: Response)
    ensures
      var effect := Submit(m, position, req, response);
      effect.outcome.Ok? ==> Matches([effect.outcome.value], effect.submissions)
  {
    hide FillOf, Book, SignedFill;
  }

  lemma ReceiptOfDelta(m: Market, i: Instrument, t: Target, actual: Option<Position>, position: Option<Position>,
                       notional: real, reduceOnly: bool, id: nat, response: Response)
    ensures
      var effect := ExecuteDelta(false, m, i, t, actual, position, notional, reduceOnly, id, response);
      effect.outcome.Ok? ==> Matches([effect.outcome.value], effect.submissions)
  {
    hide Submit, DeltaQuantity, DeltaRequest, Matches;
    var quantity := DeltaQuantity(i, m.price, actual, notional, reduceOnly);
    if quantity.Ok? && (reduceOnly ==> actual.Some?) {
      ReceiptOfOrder(m, position, DeltaRequest(t, actual, quantity.value, reduceOnly, id), response);
    }
  }

  lemma ReceiptOfClose(m: Market, t: Target, actual: Position, position: Option<Position>, id: nat, response: Response)
    ensures
      var effect := ExecuteClose(false, m, t, actual, position, id, response);
      effect.outcome.Ok? ==> Matches([effect.outcome.value], effect.submissions)
  {
    hide Submit, CloseQuantity, CloseRequest, Matches;
    var quantity := CloseQuantity(m.instrument, actual.quantity);
    if quantity.Ok? {
      ReceiptOfOrder(m, position, CloseRequest(t, actual, quantity.value, id), response);
    }
  }

  lemma ReceiptsOfAction(c: Settings, e: Env, t: Target, position: Option<Position>, attempt: nat, n: nat)
    requires Classify(c, t, position) != Noop && !c.dryRun
    ensures
      var effect := ExecuteAction(c, e, t, position, attempt, n);
      effect.outcome.Orders? ==> Matches(effect.outcome.receipts, effect.submissions)
  {
    hide ExecuteDelta, ExecuteClose, Risk.Check, Matches, BlockedResult, Tolerance, Position.AbsNotional, OrderNotional;
    var notional, k := OrderNotional(t, position), e.firstOrder + n;
    if Classify(c, t, position) in {Flip, Close} {
      ReceiptOfClose(e.market, t, position.value, position, k, e.script(k));
      var closed := ExecuteClose(false, e.market, t, position.value, position, k, e.script(k));
      if closed.outcome.Ok? && e.market.instrument.Some? {
        ReceiptsOfNewSide(e, t, closed, k + |closed.submissions|);
      }
    } else if e.market.instrument.Some? {
      var reduceOnly := Classify(c, t, position) == Reduce;
      ReceiptOfDelta(e.market, e.market.instrument.value, t, position, position, notional, reduceOnly, k, e.script(k));
    }
  }

  lemma ReceiptsOfNewSide(e: Env, t: Target, closed: Effect, k: nat)
    requires e.market.instrument.Some? && closed.outcome.Ok? && Matches([closed.outcome.value], closed.submissions)
    ensures
      var opening := ExecuteDelta(false, e.market, e.market.instrument.value, t, None, None, t.notional, false, k,
                                  e.script(k));
      opening.outcome.Ok? ==>
        Matches([closed.outcome.value, opening.outcome.value], closed.submissions + opening.submissions)
  {
    hide ExecuteDelta, Matches;
    ReceiptOfDelta(e.market, e.market.instrument.value, t, None, None, t.notional, false, k, e.script(k));
    var opening := ExecuteDelta(false, e.market, e.market.instrument.value, t, None, None, t.notional, false, k,
                                e.script(k));
    if opening.outcome.Ok? {
      MatchesAppend([closed.outcome.value], [opening.outcome.value], closed.submissions, opening.submissions);
      assert [closed.outcome.value] + [opening.outcome.value] == [closed.outcome.value, opening.outcome.value];
    }
  }

  /** A live success lists its orders. */
  ghost predicate SuccessListsOrders(run: Run) {
    run.returned.Ok? && run.returned.value.success ==> Matches(run.returned.value.orderResults, run.submissions)
  }

  lemma AttemptListsOrders(c: Settings, e: Env, t: Target, initial: Option<Position>, s: State, attempt: nat)
    requires !c.dryRun && Matches(s.receipts, s.submissions)
    ensures
      match Attempt(c, e, t, initial, s, attempt)
      case Done(run) => SuccessListsOrders(run)
      case Continue(next) => Matches(next.receipts, next.submissions)
  {
    hide Suppresses, ClassifyExecuted, Error.IsPerpMirrorError, StartCooldown, Matches, AbsNotionalOf;
    if Classify(c, t, s.position) != Noop {
      var effect := ExecuteAction(c, e, t, s.position, attempt, |s.submissions|);
      ReceiptsOfAction(c, e, t, s.position, attempt, |s.submissions|);
      StoppedFails(c, e, t, s.position, attempt, |s.submissions|);
      if effect.outcome.Orders? {
        MatchesAppend(s.receipts, effect.outcome.receipts, s.submissions, effect.submissions);
      }
    }
    hide ExecuteAction, Classify;
  }

  lemma StoppedFails(c: Settings, e: Env, t: Target, position: Option<Position>, attempt: nat, n: nat)
    requires Classify(c, t, position) != Noop
    ensures
      var effect := ExecuteAction(c, e, t, position, attempt, n);
      effect.outcome.Stopped? ==> !effect.outcome.result.success
  {
    hide Risk.Check, Submit, DeltaQuantity, CloseQuantity, DeltaRequest, CloseRequest, OrderNotional;
  }

  lemma {:induction false} LoopListsOrders(c: Settings, e: Env, t: Target, initial: Option<Position>, s: State,
                                           attempt: nat)
    requires !c.dryRun && Matches(s.receipts, s.submissions)
    ensures SuccessListsOrders(Loop(c, e, t, initial, s, attempt))
    decreases c.maxRetries + 1 - attempt
  {
    hide Attempt, Matches, Classify, ClassifyExecuted;
    if attempt <= c.maxRetries {
      AttemptListsOrders(c, e, t, initial, s, attempt);
      match Attempt(c, e, t, initial, s, attempt)
      case Done(_) =>
      case Continue(next) => LoopListsOrders(c, e, t, initial, next, attempt + 1);
    }
  }

  /**
    A live run that reports success lists every order it submitted, in order, each with its id and exactly what
    it filled, also where the acknowledgement was lost. (Runs that fail may list fewer.)
  */
  lemma SuccessfulRunListsItsOrders(c: Settings, e: Env, t: Target, position: Option<Position>,
                                    cooldown: Option<FailureCooldown>)
    requires !c.dryRun
    ensures SuccessListsOrders(Reconcile(c, e, t, position, cooldown))
  {
    hide Loop, SuccessListsOrders;
    LoopListsOrders(c, e, t, position, State(position, [], [], cooldown), 0);
  }

  // ----- Which runs list all their orders -----

  /** The order filled something and was acknowledged, at once or by the lookup. */
  ghost predicate OrderLanded(e: Env, s: Submission) {
    s.fill != 0.0 && Acknowledges(e.script(s.request.clientOrderId))
  }

  /** A single closing order. */
  predicate HalfFlip(submissions: seq<Submission>) {
    |submissions| == 1 && submissions[0].request.purpose == Closing
  }

  /**
    The two ways in which receipts get lost: a risk block after earlier orders of the run, and a failure
    after an order of the last attempt, which either did not land itself or was the closing half of a flip.
  */
  ghost predicate LosesReceipts(e: Env, t: Target, message: Message, submissions: seq<Submission>) {
    && submissions != []
    && (|| message.RiskReason?
        || (&& message.Failed?
            && (|| !OrderLanded(e, submissions[|submissions| - 1])
                || (HalfFlip(submissions) && !WantsFlat(t)))))
  }

  /** A finished run lists its orders exactly if it did not lose receipts in one of these ways. */
  ghost predicate Split(e: Env, t: Target, run: Run) {
    run.returned.Ok? ==>
      var result := run.returned.value;
      Matches(result.orderResults, run.submissions) <==> !LosesReceipts(e, t, result.message, run.submissions)
  }

  lemma UnansweredOrder(e: Env, position: Option<Position>, req: OrderRequest)
    ensures
      var effect := Submit(e.market, position, req, e.script(req.clientOrderId));
      |effect.submissions| == 1 && (effect.outcome.Err? ==> !OrderLanded(e, effect.submissions[0]))
  {
    hide FillOf, Book, SignedFill;
  }

  /** An action other than a flip stops before its order, or raises before it or because of it. */
  ghost predicate PlainEnd(e: Env, effect: ActionEffect) {
    match effect.outcome
    case Orders(_) => true
    case Stopped(result) => effect.submissions == [] && result.orderResults == [] && result.message.RiskReason?
    case Raises(_) => effect.submissions == [] || (|effect.submissions| == 1 && !OrderLanded(e, effect.submissions[0]))
  }

  lemma DeltaEnds(e: Env, i: Instrument, t: Target, actual: Option<Position>, position: Option<Position>,
                  notional: real,
                  reduceOnly: bool, id: nat)
    ensures
      var effect := ExecuteDelta(false, e.market, i, t, actual, position, notional, reduceOnly, id, e.script(id));
      PlainEnd(e, Receipt(effect))
  {
    hide Submit, DeltaQuantity, OrderLanded;
    var quantity := DeltaQuantity(i, e.market.price, actual, notional, reduceOnly);
    if quantity.Ok? && (reduceOnly ==> actual.Some?) {
      UnansweredOrder(e, position, DeltaRequest(t, actual, quantity.value, reduceOnly, id));
    }
  }

  lemma CloseEnds(e: Env, t: Target, actual: Position, position: Option<Position>, id: nat)
    ensures PlainEnd(e, Receipt(ExecuteClose(false, e.market, t, actual, position, id, e.script(id))))
  {
    hide Submit, CloseQuantity, OrderLanded;
    var quantity := CloseQuantity(e.market.instrument, actual.quantity);
    if quantity.Ok? {
      UnansweredOrder(e, position, CloseRequest(t, actual, quantity.value, id));
    }
  }

  lemma PlainActionEnds(c: Settings, e: Env, t: Target, position: Option<Position>, attempt: nat, n: nat)
    requires Classify(c, t, position) !in {Noop, Flip} && !c.dryRun
    ensures PlainEnd(e, ExecuteAction(c, e, t, position, attempt, n))
  {
    hide ExecuteDelta, ExecuteClose, Risk.Check, Tolerance, Position.AbsNotional, OrderNotional, OrderLanded;
    var notional, k := OrderNotional(t, position), e.firstOrder + n;
    if Classify(c, t, position) == Close {
      CloseEnds(e, t, position.value, position, k);
    } else if e.market.instrument.Some? {
      DeltaEnds(e, e.market.instrument.value, t, position, position, notional, Classify(c, t, position) == Reduce, k);
    }
  }

  /** A flip stops with its receipts, or raises over an order that did not land or after its closing half. */
  ghost predicate FlipEnd(e: Env, effect: ActionEffect) {
    match effect.outcome
    case Orders(_) => |effect.submissions| == 2
    case Stopped(result) =>
      && Matches(result.orderResults, effect.submissions) && !result.message.Failed?
      && (result.message.RiskReason? ==> effect.submissions == [])
    case Raises(_) =>
      || effect.submissions == [] || HalfFlip(effect.submissions)
      || !OrderLanded(e, effect.submissions[|effect.submissions| - 1])
  }

  lemma FlipActionEnds(c: Settings, e: Env, t: Target, position: Position, attempt: nat, n: nat)
    requires e.market.Ready() && !c.dryRun
    ensures FlipEnd(e, FlipAction(c, e, t, Some(position), attempt, n))
  {
    var k := e.firstOrder + n;
    hide ExecuteClose, OpenAfterClose, Risk.Check, Position.AbsNotional, OrderLanded, Matches;
    CloseEnds(e, t, position, Some(position), k);
    CloseIsHalf(e.market, t, position, Some(position), k, e.script(k));
    ReceiptOfClose(e.market, t, position, Some(position), k, e.script(k));
    NoReceiptsMatch();
    var closed := ExecuteClose(false, e.market, t, position, Some(position), k, e.script(k));
    if closed.outcome.Ok? {
      NewSideEnds(c, e, t, position, closed, attempt, n);
    }
  }

  lemma CloseIsHalf(m: Market, t: Target, actual: Position, position: Option<Position>, id: nat, response: Response)
    ensures
      var closed := ExecuteClose(false, m, t, actual, position, id, response);
      closed.outcome.Ok? ==> HalfFlip(closed.submissions)
  {
    hide Place, CloseQuantity;
  }

  lemma NoReceiptsMatch()
    ensures Matches([], [])
  {}

  lemma NewSideEnds(c: Settings, e: Env, t: Target, position: Position, closed: Effect, attempt: nat, n: nat)
    requires e.market.Ready() && !c.dryRun && closed.outcome.Ok? && HalfFlip(closed.submissions)
    requires Matches([closed.outcome.value], closed.submissions)
    ensures FlipEnd(e, OpenAfterClose(c, e, t, position, closed, attempt, n))
  {
    hide ExecuteDelta, Risk.Check, Position.AbsNotional, OrderLanded, Matches;
    var k := e.firstOrder + n + |closed.submissions|;
    DeltaEnds(e, e.market.instrument.value, t, None, None, t.notional, false, k);
    DeltaReceiptIsOrder(e.market, e.market.instrument.value, t, k, e.script(k));
  }

  lemma DeltaReceiptIsOrder(m: Market, i: Instrument, t: Target, id: nat, response: Response)
    ensures
      var effect := ExecuteDelta(false, m, i, t, None, None, t.notional, false, id, response);
      effect.outcome.Ok? ==> |effect.submissions| == 1
  {
    hide Place, DeltaQuantity, DeltaRequest;
  }

  // ----- Runs -----

  /** The receipts so far are complete, and a lone closing order belongs to a close. */
  ghost predicate Listed(t: Target, s: State) {
    && Matches(s.receipts, s.submissions)
    && (s.cooldown.Some? ==> s.submissions == [])
    && (HalfFlip(s.submissions) ==> WantsFlat(t))
  }

  lemma PlainAttemptSplits(c: Settings, e: Env, t: Target, initial: Option<Position>, s: State, effect: ActionEffect,
                           attempt: nat)
    requires !c.dryRun && Listed(t, s) && AllLanded(e, s.submissions)
    requires Classify(c, t, s.position) !in {Noop, Flip} && PlainEnd(e, effect)
    requires effect.outcome.Orders? ==> effect.submissions != [] && Matches(effect.outcome.receipts, effect.submissions)
    requires HalfFlip(effect.submissions) ==> WantsFlat(t)
    ensures
      match AfterAction(c, e, t, initial, s, effect, attempt)
      case Done(run) => Split(e, t, run)
      case Continue(next) => Listed(t, next)
  {
    var all := s.submissions + effect.submissions;
    if effect.outcome.Orders? {
      MatchesAppend(s.receipts, effect.outcome.receipts, s.submissions, effect.submissions);
    } else if effect.submissions == [] {
      assert all == s.submissions;
    }
    hide Classify, WantsFlat, StartCooldown, AbsNotionalOf, Error.IsPerpMirrorError;
  }

  lemma FlipAttemptSplits(c: Settings, e: Env, t: Target, initial: Option<Position>, s: State, effect: ActionEffect,
                          attempt: nat)
    requires !c.dryRun && Listed(t, s) && s.submissions == [] && !WantsFlat(t)
    requires Classify(c, t, s.position) == Flip && FlipEnd(e, effect)
    requires effect.outcome.Orders? ==> Matches(effect.outcome.receipts, effect.submissions)
    ensures
      match AfterAction(c, e, t, initial, s, effect, attempt)
      case Done(run) => Split(e, t, run)
      case Continue(next) => Listed(t, next)
  {
    assert s.submissions + effect.submissions == effect.submissions;
    assert s.receipts == [];
    if effect.outcome.Orders? {
      assert s.receipts + effect.outcome.receipts == effect.outcome.receipts;
    }
    hide Classify, WantsFlat, StartCooldown, AbsNotionalOf, Error.IsPerpMirrorError;
  }

  lemma ActionSplits(c: Settings, e: Env, t: Target, initial: Option<Position>, s: State, attempt: nat)
    requires e.market.Ready() && Underway(e, t, initial, s.submissions, s.position, attempt)
    requires !c.dryRun && Listed(t, s) && Classify(c, t, s.position) != Noop
    ensures
      match AfterAction(c, e, t, initial, s, ExecuteAction(c, e, t, s.position, attempt, |s.submissions|), attempt)
      case Done(run) => Split(e, t, run)
      case Continue(next) => Listed(t, next)
  {
    var n := |s.submissions|;
    var effect := ExecuteAction(c, e, t, s.position, attempt, n);
    assert e.market.Booked(s.position);
    ActionMoves(c, e, t, s.position, attempt, n);
    ReceiptsOfAction(c, e, t, s.position, attempt, n);
    ClassifyMeans(c, e.market, t, s.position);
    hide Journey, Along, AfterAction, Matches, Listed, Split, AllLanded, OrderLanded, Classify;
    if Classify(c, t, s.position) == Flip {
      FlipActionEnds(c, e, t, s.position.value, attempt, n);
      hide FlipAction;
      FlipAttemptSplits(c, e, t, initial, s, effect, attempt);
    } else {
      PlainActionEnds(c, e, t, s.position, attempt, n);
      hide ExecuteAction;
      PlainAttemptSplits(c, e, t, initial, s, effect, attempt);
    }
  }

  lemma AttemptSplits(c: Settings, e: Env, t: Target, initial: Option<Position>, s: State, attempt: nat)
    requires e.market.Ready() && Underway(e, t, initial, s.submissions, s.position, attempt)
    requires !c.dryRun && Listed(t, s)
    ensures
      match Attempt(c, e, t, initial, s, attempt)
      case Done(run) => Split(e, t, run)
      case Continue(next) => Listed(t, next)
  {
    hide Underway, ExecuteAction, AfterAction, Classify, ClassifyExecuted, AbsNotionalOf, Matches, OrderLanded;
    hide WantsFlat, SameFailureTarget;
    if Classify(c, t, s.position) != Noop {
      ActionSplits(c, e, t, initial, s, attempt);
    }
  }

  lemma {:induction false} LoopSplits(c: Settings, e: Env, t: Target, initial: Option<Position>, s: State, attempt: nat)
    requires e.market.Ready() && Underway(e, t, initial, s.submissions, s.position, attempt)
    requires !c.dryRun && Listed(t, s)
    ensures Split(e, t, Loop(c, e, t, initial, s, attempt))
    decreases c.maxRetries + 1 - attempt
  {
    hide Attempt, Underway, Safe, Matches, OrderLanded, Classify, ClassifyExecuted, AbsNotionalOf, WantsFlat;
    if attempt <= c.maxRetries {
      AttemptSafe(c, e, t, initial, s, attempt);
      AttemptSplits(c, e, t, initial, s, attempt);
      hide Listed, Split;
      match Attempt(c, e, t, initial, s, attempt)
      case Done(_) =>
      case Continue(next) => LoopSplits(c, e, t, initial, next, attempt + 1);
    }
  }

  /**
    Every live run that returns lists its orders, each with its id and what it filled, if and only if it did not
    end in a risk block after earlier orders, or in a failure after an order of its last attempt. So a flip that
    is stopped with its old side closed or partly closed still lists its closing order.
  */
  lemma ReceiptsAreCompleteExactly(c: Settings, e: Env, t: Target, position: Option<Position>,
                                   cooldown: Option<FailureCooldown>)
    requires e.market.Ready() && e.market.Booked(position) && !c.dryRun
    ensures Split(e, t, Reconcile(c, e, t, position, cooldown))
  {
    hide Loop, Split, Underway;
    StartsUnderway(e, t, position);
    LoopSplits(c, e, t, position, State(position, [], [], cooldown), 0);
  }

  // ----- The reported action -----

  /** Classified and executed action differ for one kind of target: a side with nothing wanted on it. */
  lemma ActionsAgree(c: Settings, t: Target, initial: Option<Position>)
    requires initial.Some? ==> initial.value.side != Flat
    requires Classify(c, t, initial) != Noop
    ensures ClassifyExecuted(initial, t) == Classify(c, t, initial) <==> t.side == Flat || t.notional > 0.0
    ensures t.side != Flat && t.notional <= 0.0 ==>
      Classify(c, t, initial) == Close && ClassifyExecuted(initial, t) in {Reduce, Flip}
  {
    hide Tolerance;
  }

  /** A success that lists orders reports the action executed from where the run began. */
  ghost predicate ReportsExecuted(t: Target, initial: Option<Position>, run: Run) {
    run.returned.Ok? && run.returned.value.success && run.returned.value.orderResults != [] ==>
      run.returned.value.action == ClassifyExecuted(initial, t)
  }

  lemma {:induction false} LoopReportsExecuted(c: Settings, e: Env, t: Target, initial: Option<Position>, s: State,
                                               attempt: nat)
    requires !c.dryRun
    ensures ReportsExecuted(t, initial, Loop(c, e, t, initial, s, attempt))
    decreases c.maxRetries + 1 - attempt
  {
    if attempt <= c.maxRetries {
      AttemptReportsExecuted(c, e, t, initial, s, attempt);
      hide Attempt, ReportsExecuted;
      match Attempt(c, e, t, initial, s, attempt)
      case Done(_) =>
      case Continue(next) => LoopReportsExecuted(c, e, t, initial, next, attempt + 1);
    }
    hide Classify, ClassifyExecuted, AbsNotionalOf;
  }

  lemma AttemptReportsExecuted(c: Settings, e: Env, t: Target, initial: Option<Position>, s: State, attempt: nat)
    requires !c.dryRun
    ensures
      match Attempt(c, e, t, initial, s, attempt)
      case Done(run) => ReportsExecuted(t, initial, run)
      case Continue(_) => true
  {
    hide Suppresses, ClassifyExecuted, Error.IsPerpMirrorError, StartCooldown, AbsNotionalOf;
    if Classify(c, t, s.position) != Noop {
      StoppedFails(c, e, t, s.position, attempt, |s.submissions|);
    }
    hide ExecuteAction, Classify;
  }

  /**
    The action that a live success with at least one order reports is the one its first attempt classified,
    except for exactly one kind of target: a side with nothing wanted on it is closed, but reported as REDUCE
    or FLIP.
  */
  lemma ReportedActionAgrees(c: Settings, e: Env, t: Target, position: Option<Position>,
                             cooldown: Option<FailureCooldown>)
    requires e.market.Ready() && e.market.Booked(position) && !c.dryRun
    requires
      var run := Reconcile(c, e, t, position, cooldown);
      run.returned.Ok? && run.returned.value.success && run.submissions != []
    ensures
      var action := Reconcile(c, e, t, position, cooldown).returned.value.action;
      && (action == Classify(c, t, position) <==> t.side == Flat || t.notional > 0.0)
      && (t.side != Flat && t.notional <= 0.0 ==> Classify(c, t, position) == Close && action in {Reduce, Flip})
  {
    var s := State(position, [], [], cooldown);
    SuccessfulRunListsItsOrders(c, e, t, position, cooldown);
    LoopReportsExecuted(c, e, t, position, s, 0);
    assert Classify(c, t, position) != Noop by {
      hide Classify, ClassifyExecuted, AbsNotionalOf, SameFailureTarget;
      if Classify(c, t, position) == Noop {
        NothingToDo(c, e, t, s);
      }
    }
    hide Loop, Classify, ClassifyExecuted;
    ActionsAgree(c, t, position);
  }

  lemma NothingToDo(c: Settings, e: Env, t: Target, s: State)
    requires Classify(c, t, s.position) == Noop
    ensures Loop(c, e, t, s.position, s, 0).submissions == s.submissions
  {
    hide Classify, ClassifyExecuted, AbsNotionalOf;
    if c.maxRetries >= 0 {
      LoopOnce(c, e, t, s.position, s, 0);
    }
  }
}
