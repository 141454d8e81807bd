/**
  One reconcile run (perpmirror/copy/reconciler.py).

  `Loop` is the retry loop as a function of everything the run reads: the market, the exchange's answers,
  the other symbols' positions at each portfolio read (they belong to concurrent runs and may change
  freely) and the clock. Class `Reconciler` does the same to a `FakeExchange` and its own cooldown table.
*/
module Reconciler {
  import opened Wrappers
  import opened Models
  import opened Exchange
  import opened Executor
  import Risk

  datatype Message =
    | NoMessage
    | DryRunOnly
    | RetriesReached
    | FlipStopped
    | NewSideBlocked(rule: Risk.Rule)
    | RiskReason(rule: Risk.Rule)
    | Failed(error: Error)

  datatype ReconcileResult = ReconcileResult(
    followerId: string,
    symbol: string,
    action: Action,
    targetNotional: real,
    previousNotional: real,
    finalNotional: Option<real>,
    orderResults: seq<OrderResult>,
    success: bool,
    message: Message,
    suppressed: bool)

  datatype FailureCooldown = FailureCooldown(
    deadline: real,
    side: PositionSide,
    notional: real,
    requestAction: Action,
    resultAction: Action,
    message: Message)

  datatype Settings = Settings(
    risk: Risk.Config,
    dryRun: bool,
    driftPercent: real,
    driftMin: real,
    maxRetries: int,
    failureCooldown: real)

  /** The clock during one attempt: at the cooldown check, at the submission, and after a failure. */
  datatype Moment = Moment(checked: real, submitted: real, failed: real)

  /** Everything a run reads from outside. The k-th order of the account gets `script(k)`. */
  datatype Env = Env(
    market: Market,
    others: nat -> map<string, Position>,
    script: nat -> Response,
    firstOrder: nat,
    clock: nat -> Moment)
  {
    /** `get_positions` at the k-th portfolio read. */
    function Portfolio(k: nat, symbol: string, own: Option<Position>): map<string, Position> {
      WithLeg(others(k), symbol, own)
    }
  }

  // ----- Pure decisions -----

  function Tolerance(c: Settings, notional: real): real {
    Max(c.driftMin, Product(notional, c.driftPercent) / 100.0)
  }

  function Classify(c: Settings, target: Target, actual: Option<Position>): Action {
    if target.side == Flat || target.notional <= 0.0 then
      if actual.None? then Noop else Close
    else if actual.None? || actual.value.side == Flat then Open
    else if actual.value.side != target.side then Flip
    else
      var delta := target.notional - actual.value.AbsNotional();
      if Abs(delta) <= Tolerance(c, target.notional) then Noop
      else if delta > 0.0 then Add else Reduce
  }

  function ClassifyExecuted(initial: Option<Position>, target: Target): Action {
    if target.side == Flat then Close
    else if initial.None? then Open
    else if initial.value.side != target.side then Flip
    else if target.notional > initial.value.AbsNotional() then Add
    else Reduce
  }

  predicate SameFailureTarget(c: Settings, cooldown: FailureCooldown, target: Target, action: Action) {
    && cooldown.side == target.side
    && cooldown.requestAction == action
    && Abs(cooldown.notional - target.notional) <= Tolerance(c, cooldown.notional)
  }

  /** The entry a failure leaves behind; a cooldown of zero or less leaves none. */
  function StartCooldown(c: Settings, target: Target, requestAction: Action, resultAction: Action, message: Message,
                         now: real)
    : Option<FailureCooldown>
  {
    if c.failureCooldown <= 0.0 then None
    else
      Some(FailureCooldown(now + c.failureCooldown, target.side, target.notional, requestAction, resultAction, message))
  }

  /** The call is answered from the cooldown entry without touching the exchange. */
  predicate Suppresses(c: Settings, cooldown: Option<FailureCooldown>, target: Target, action: Action, now: real) {
    && action in {Open, Add} && cooldown.Some?
    && SameFailureTarget(c, cooldown.value, target, action) && cooldown.value.deadline > now
  }

  function BlockedResult(target: Target, actual: Option<Position>, rule: Risk.Rule): ReconcileResult {
    var current := AbsNotionalOf(actual);
    ReconcileResult(target.followerId, target.symbol, RiskBlocked, target.notional, current, Some(current), [], false,
                    RiskReason(rule), false)
  }

  // ----- One action -----

  datatype ActionOutcome = Orders(receipts: seq<OrderResult>) | Stopped(result: ReconcileResult) | Raises(error: Error)

  datatype ActionEffect = ActionEffect(position: Option<Position>, submissions: seq<Submission>, outcome: ActionOutcome)

  /** The notional an OPEN, ADD or REDUCE asks for. */
  function OrderNotional(target: Target, actual: Option<Position>): real {
    if actual.None? then target.notional else Abs(target.notional - actual.value.AbsNotional())
  }

  function Receipt(effect: Effect): ActionEffect {
    ActionEffect(effect.position, effect.submissions,
                 match effect.outcome case Ok(r) => Orders([r]) case Err(error) => Raises(error))
  }

  ghost function CloseAction(c: Settings, e: Env, t: Target, position: Option<Position>, attempt: nat,
                             n: nat): ActionEffect
    requires position.Some?
  {
    var decision := Risk.Check(c.risk, t, position, e.Portfolio(2 * attempt, t.symbol, position), Close,
                               position.value.AbsNotional());
    if decision.Blocked? then ActionEffect(position, [], Stopped(BlockedResult(t, position, decision.rule)))
    else
      var k := e.firstOrder + n;
      Receipt(ExecuteClose(c.dryRun, e.market, t, position.value, position, k, e.script(k)))
  }

  ghost function DeltaAction(c: Settings, e: Env, t: Target, position: Option<Position>, action: Action, attempt: nat,
                             n: nat)
    : ActionEffect
  {
    var notional := OrderNotional(t, position);
    var decision := Risk.Check(c.risk, t, position, e.Portfolio(2 * attempt, t.symbol, position), action, notional);
    if decision.Blocked? then ActionEffect(position, [], Stopped(BlockedResult(t, position, decision.rule)))
    else if e.market.instrument.None? then ActionEffect(position, [], Raises(InstrumentNotFound))
    else
      var k := e.firstOrder + n;
      Receipt(ExecuteDelta(c.dryRun, e.market, e.market.instrument.value, t, position, position, notional,
                           action == Reduce, k, e.script(k)))
  }

  /** The second half of a flip: only from a verified flat position. */
  ghost function OpenAfterClose(c: Settings, e: Env, t: Target, old_: Position, closed: Effect, attempt: nat,
                                n: nat): ActionEffect
    requires closed.outcome.Ok?
  {
    var receipt := closed.outcome.value;
    if closed.position.Some? then
      ActionEffect(closed.position, closed.submissions, Stopped(ReconcileResult(
        t.followerId, t.symbol, OrderFailed, t.notional, old_.AbsNotional(), Some(AbsNotionalOf(closed.position)),
        [receipt], false, FlipStopped, false)))
    else
      var decision := Risk.Check(c.risk, t, None, e.Portfolio(2 * attempt + 1, t.symbol, None), Open, t.notional);
      if decision.Blocked? then
        ActionEffect(None, closed.submissions, Stopped(ReconcileResult(
          t.followerId, t.symbol, RiskBlocked, t.notional, old_.AbsNotional(), Some(0.0), [receipt],
          false, NewSideBlocked(decision.rule), false)))
      else if e.market.instrument.None? then ActionEffect(None, closed.submissions, Raises(InstrumentNotFound))
      else
        var k := e.firstOrder + n + |closed.submissions|;
        var opening := ExecuteDelta(c.dryRun, e.market, e.market.instrument.value, t, None, None, t.notional, false, k,
                                    e.script(k));
        ActionEffect(opening.position, closed.submissions + opening.submissions,
                     match opening.outcome case Ok(r) => Orders([receipt, r]) case Err(error) => Raises(error))
  }

  ghost function FlipAction(c: Settings, e: Env, t: Target, position: Option<Position>, attempt: nat,
                            n: nat): ActionEffect
    requires position.Some?
  {
    var decision := Risk.Check(c.risk, t, position, e.Portfolio(2 * attempt, t.symbol, position), Close,
                               position.value.AbsNotional());
    if decision.Blocked? then ActionEffect(position, [], Stopped(BlockedResult(t, position, decision.rule)))
    else
      var closed := ExecuteClose(c.dryRun, e.market, t, position.value, position, e.firstOrder + n,
                                 e.script(e.firstOrder + n));
      match closed.outcome
      case Err(error) => ActionEffect(closed.position, closed.submissions, Raises(error))
      case Ok(receipt) =>
        if c.dryRun then ActionEffect(closed.position, closed.submissions, Orders([receipt]))
        else OpenAfterClose(c, e, t, position.value, closed, attempt, n)
  }

  /** `_execute_action`; `n` orders were submitted earlier in the run. */
  ghost function ExecuteAction(c: Settings, e: Env, t: Target, position: Option<Position>, attempt: nat,
                               n: nat): ActionEffect
    requires Classify(c, t, position) != Noop
  {
    match Classify(c, t, position)
    case Flip => FlipAction(c, e, t, position, attempt, n)
    case Close => CloseAction(c, e, t, position, attempt, n)
    case action => DeltaAction(c, e, t, position, action, attempt, n)
  }

  // ----- The retry loop -----

  /** The loop's variables: own position, orders submitted, receipts kept, and this key's cooldown entry. */
  datatype State = State(
    position: Option<Position>,
    submissions: seq<Submission>,
    receipts: seq<OrderResult>,
    cooldown: Option<FailureCooldown>)

  /** A finished run: what it returned or raised and what it left behind. */
  datatype Run = Run(
    returned: Result<ReconcileResult, Error>,
    position: Option<Position>,
    submissions: seq<Submission>,
    cooldown: Option<FailureCooldown>)

  datatype Progress = Continue(state: State) | Done(run: Run)

  ghost function AfterAction(c: Settings, e: Env, t: Target, initial: Option<Position>, s: State, effect: ActionEffect,
                             attempt: nat)
    : Progress
  {
    var action := Classify(c, t, s.position);
    var previous := AbsNotionalOf(initial);
    var submissions := s.submissions + effect.submissions;
    var increasing := action in {Open, Add};
    match effect.outcome
    case Raises(error) =>
      if !error.IsPerpMirrorError() then Done(Run(Err(error), effect.position, submissions, None))
      else
        var cooldown :=
          if increasing then StartCooldown(c, t, action, OrderFailed, Failed(error), e.clock(attempt).failed) else None;
        Done(Run(Ok(ReconcileResult(t.followerId, t.symbol, OrderFailed, t.notional, previous,
                                    Some(AbsNotionalOf(effect.position)), s.receipts, false, Failed(error), false)),
                 effect.position, submissions, cooldown))
    case Stopped(result) =>
      var cooldown :=
        if result.action == RiskBlocked && increasing then
          StartCooldown(c, t, action, RiskBlocked, result.message, e.clock(attempt).failed)
        else None;
      Done(Run(Ok(result), effect.position, submissions, cooldown))
    case Orders(receipts) =>
      if c.dryRun then
        Done(Run(Ok(ReconcileResult(t.followerId, t.symbol, action, t.notional, previous, Some(previous),
                                    s.receipts + receipts, true, DryRunOnly, false)),
                 effect.position, submissions, None))
      else Continue(State(effect.position, submissions, s.receipts + receipts, None))
  }

  ghost function Attempt(c: Settings, e: Env, t: Target, initial: Option<Position>, s: State, attempt: nat): Progress {
    var action := Classify(c, t, s.position);
    if Suppresses(c, s.cooldown, t, action, e.clock(attempt).checked) then
      Done(Run(Ok(ReconcileResult(
        t.followerId, t.symbol, s.cooldown.value.resultAction, t.notional, AbsNotionalOf(initial),
        Some(AbsNotionalOf(s.position)), s.receipts, false, s.cooldown.value.message, true)),
               s.position, s.submissions, s.cooldown))
    else if action == Noop then
      Done(Run(Ok(ReconcileResult(
        t.followerId, t.symbol, if s.receipts == [] then Noop else ClassifyExecuted(initial, t), t.notional,
        AbsNotionalOf(initial), Some(AbsNotionalOf(s.position)), s.receipts, true, NoMessage, false)),
               s.position, s.submissions, None))
    else AfterAction(c, e, t, initial, s, ExecuteAction(c, e, t, s.position, attempt, |s.submissions|), attempt)
  }

  function Exhausted(c: Settings, t: Target, initial: Option<Position>, s: State): Run {
    Run(Ok(ReconcileResult(t.followerId, t.symbol, ClassifyExecuted(initial, t), t.notional, AbsNotionalOf(initial),
                           Some(AbsNotionalOf(s.position)), s.receipts, Classify(c, t, s.position) == Noop,
                           RetriesReached, false)),
        s.position, s.submissions, s.cooldown)
  }

  ghost function Loop(c: Settings, e: Env, t: Target, initial: Option<Position>, s: State, attempt: nat): Run
    decreases c.maxRetries + 1 - attempt
  {
    if attempt > c.maxRetries then Exhausted(c, t, initial, s)
    else
      match Attempt(c, e, t, initial, s, attempt)
      case Done(run) => run
      case Continue(next) => Loop(c, e, t, initial, next, attempt + 1)
  }

  /** A whole `reconcile` call on a position, given the key's cooldown entry. */
  ghost function Reconcile(c: Settings, e: Env, t: Target, position: Option<Position>,
                           cooldown: Option<FailureCooldown>): Run
  {
    Loop(c, e, t, position, State(position, [], [], cooldown), 0)
  }

  // ----- The class -----

  type Key = (string, string)

  function KeyOf(t: Target): Key {
    (t.followerId, t.symbol)
  }

  function Entry(cooldowns: map<Key, FailureCooldown>, key: Key): Option<FailureCooldown> {
    if key in cooldowns then Some(cooldowns[key]) else None
  }

  function WithEntry(cooldowns: map<Key, FailureCooldown>, key: Key,
                     entry: Option<FailureCooldown>): map<Key, FailureCooldown>
  {
    if entry.Some? then cooldowns[key := entry.value] else cooldowns - {key}
  }

  /** What a run reads from an account that no other run touches meanwhile. */
  function Alone(market: Market, positions: map<string, Position>, script: nat -> Response, firstOrder: nat,
                 clock: nat -> Moment): Env
  {
    Env(market, k => positions, script, firstOrder, clock)
  }

  class Reconciler {
    const settings: Settings
    const executor: ExecutionEngine
    var failureCooldowns: map<Key, FailureCooldown>

    ghost predicate Valid() {
      executor.dryRun == settings.dryRun
    }

    constructor (settings: Settings)
      ensures Valid() && this.settings == settings && failureCooldowns == map[]
    {
      this.settings := settings;
      this.executor := new ExecutionEngine(settings.dryRun);
      this.failureCooldowns := map[];
    }

    /** `_execute_action`. */
    method PerformAction(client: FakeExchange, target: Target, actual: Option<Position>, action: Action,
                         ghost env: Env, ghost attempt: nat, ghost n: nat)
      returns (outcome: ActionOutcome)
      requires Valid() && client.Valid()
      requires actual == client.GetPosition(target.symbol) && action == Classify(settings, target, actual) != Noop
      requires env.market == client.MarketOf(target.symbol) && env.script == client.script
      requires env.firstOrder + n == |client.orders|
      requires forall k :: env.Portfolio(k, target.symbol, actual) == client.positions
      modifies client
      ensures client.Valid()
      ensures
        var effect := ExecuteAction(settings, env, target, actual, attempt, n);
        && outcome == effect.outcome
        && client.positions == WithLeg(old(client.positions), target.symbol, effect.position)
        && client.orders == old(client.orders) + Requests(effect.submissions)
    {
      hide ExecuteDelta, ExecuteClose, OpenAfterClose, Risk.Check, WithLeg, Requests, BlockedResult;
      WithLegTwice(client.positions, target.symbol, None, None);
      assert env.Portfolio(2 * attempt, target.symbol, actual) == client.positions;
      ghost var before := client.positions;
      var notional := if action in {Flip, Close} then actual.value.AbsNotional() else OrderNotional(target, actual);
      var decision := Risk.CheckPortfolio(settings.risk, target, actual, client.positions,
                                          if action == Flip then Close else action, notional);
      if decision.Blocked? {
        return Stopped(BlockedResult(target, actual, decision.rule));
      }
      if action in {Open, Add, Reduce} {
        var instrument := client.MarketOf(target.symbol).instrument;
        if instrument.None? {
          return Raises(InstrumentNotFound);
        }
        var result := executor.Delta(client, instrument.value, target, actual, notional, action == Reduce);
        return if result.Ok? then Orders([result.value]) else Raises(result.error);
      }
      var closed := executor.CloseOut(client, target, actual.value);
      if closed.Err? {
        return Raises(closed.error);
      }
      if action == Close || settings.dryRun {
        return Orders([closed.value]);
      }
      ghost var effect := ExecuteClose(false, env.market, target, actual.value, actual, env.firstOrder + n,
                                       env.script(env.firstOrder + n));
      WithLegTwice(before, target.symbol, effect.position, None);
      forall k
        ensures env.Portfolio(k, target.symbol, effect.position) == client.positions
      {
        assert env.Portfolio(k, target.symbol, actual) == before;
        WithLegTwice(env.others(k), target.symbol, actual, effect.position);
      }
      outcome := OpenNewSide(client, target, actual.value, closed.value, env, effect, attempt, n);
      ghost var whole := OpenAfterClose(settings, env, target, actual.value, effect, attempt, n);
      WithLegTwice(before, target.symbol, effect.position, whole.position);
      RequestsAppend(effect.submissions, whole.submissions[|effect.submissions|..]);
      assert whole.submissions == effect.submissions + whole.submissions[|effect.submissions|..];
    }

    /** The second half of a flip. */
    method OpenNewSide(client: FakeExchange, target: Target, oldSide: Position, receipt: OrderResult,
                       ghost env: Env, ghost closed: Effect, ghost attempt: nat, ghost n: nat)
      returns (outcome: ActionOutcome)
      requires Valid() && client.Valid() && !settings.dryRun
      requires closed.outcome == Ok(receipt) && closed.position == client.GetPosition(target.symbol)
      requires env.market == client.MarketOf(target.symbol) && env.script == client.script
      requires env.firstOrder + n + |closed.submissions| == |client.orders|
      requires forall k :: env.Portfolio(k, target.symbol, closed.position) == client.positions
      modifies client
      ensures client.Valid()
      ensures
        var effect := OpenAfterClose(settings, env, target, oldSide, closed, attempt, n);
        && outcome == effect.outcome
        && closed.submissions <= effect.submissions
        && client.positions == WithLeg(old(client.positions), target.symbol, effect.position)
        && client.orders == old(client.orders) + Requests(effect.submissions[|closed.submissions|..])
    {
      hide ExecuteDelta, Risk.Check, WithLeg, Requests, Position.AbsNotional;
      WithLegTwice(client.positions, target.symbol, None, None);
      var verified := client.GetPosition(target.symbol);
      if verified.Some? {
        return Stopped(ReconcileResult(
          target.followerId, target.symbol, OrderFailed, target.notional, oldSide.AbsNotional(),
          Some(AbsNotionalOf(verified)), [receipt], false, FlipStopped, false));
      }
      assert env.Portfolio(2 * attempt + 1, target.symbol, None) == client.positions;
      var decision := Risk.CheckPortfolio(settings.risk, target, None, client.positions, Open, target.notional);
      if decision.Blocked? {
        return Stopped(ReconcileResult(
          target.followerId, target.symbol, RiskBlocked, target.notional, oldSide.AbsNotional(), Some(0.0),
          [receipt], false, NewSideBlocked(decision.rule), false));
      }
      var instrument := client.MarketOf(target.symbol).instrument;
      if instrument.None? {
        return Raises(InstrumentNotFound);
      }
      var opening := executor.Delta(client, instrument.value, target, None, target.notional, false);
      ghost var k := env.firstOrder + n + |closed.submissions|;
      ghost var effect := ExecuteDelta(false, env.market, instrument.value, target, None, None, target.notional, false,
                                       k, env.script(k));
      assert (closed.submissions + effect.submissions)[|closed.submissions|..] == effect.submissions;
      return if opening.Ok? then Orders([receipt, opening.value]) else Raises(opening.error);
    }

    /** The entry of a key is dropped; other keys keep theirs. */
    lemma EntryLaws(cooldowns: map<Key, FailureCooldown>, key: Key, entry: Option<FailureCooldown>,
                    next: Option<FailureCooldown>)
      ensures WithEntry(cooldowns, key, Entry(cooldowns, key)) == cooldowns
      ensures WithEntry(WithEntry(cooldowns, key, entry), key, next) == WithEntry(cooldowns, key, next)
      ensures Entry(WithEntry(cooldowns, key, entry), key) == entry
      ensures WithEntry(cooldowns, key, None) == cooldowns - {key}
    {}

    method StartFailureCooldown(target: Target, requestAction: Action, resultAction: Action, message: Message,
                                now: real)
      modifies this`failureCooldowns
      ensures
        var entry := StartCooldown(settings, target, requestAction, resultAction, message, now);
        failureCooldowns ==
          if entry.Some? then WithEntry(old(failureCooldowns), KeyOf(target), entry) else old(failureCooldowns)
    {
      if settings.failureCooldown <= 0.0 {
        return;
      }
      failureCooldowns := failureCooldowns[KeyOf(target) :=
        FailureCooldown(now + settings.failureCooldown, target.side, target.notional, requestAction, resultAction,
                        message)];
    }

    /** `reconcile`, with the clock readings of each attempt as a parameter. */
    method ReconcileTarget(client: FakeExchange, target: Target, clock: nat -> Moment)
      returns (r: Result<ReconcileResult, Error>)
      requires Valid() && client.Valid()
      modifies this`failureCooldowns, client
      ensures client.Valid()
      ensures
        var env := Alone(client.MarketOf(target.symbol), old(client.positions), client.script, |old(client.orders)|,
                         clock);
        var run := Reconcile(settings, env, target, old(client.GetPosition(target.symbol)),
                             Entry(old(failureCooldowns), KeyOf(target)));
        && r == run.returned
        && client.positions == WithLeg(old(client.positions), target.symbol, run.position)
        && client.orders == old(client.orders) + Requests(run.submissions)
        && failureCooldowns == WithEntry(old(failureCooldowns), KeyOf(target), run.cooldown)
    {
      hide ExecuteAction, Classify, WithLeg, Requests, StartCooldown, WithEntry, Entry, ClassifyExecuted;
      hide SameFailureTarget;
      ghost var env := Alone(client.MarketOf(target.symbol), client.positions, client.script, |client.orders|, clock);
      var initial := client.GetPosition(target.symbol);
      var previous := AbsNotionalOf(initial);
      ghost var run := Reconcile(settings, env, target, initial, Entry(failureCooldowns, KeyOf(target)));
      var receipts := [];
      ghost var submissions := [];
      var attempt: nat := 0;
      WithLegTwice(client.positions, target.symbol, None, None);
      EntryLaws(failureCooldowns, KeyOf(target), None, None);
      assert Requests([]) == [];
      while attempt <= settings.maxRetries
        invariant client.Valid()
        invariant client.positions == WithLeg(old(client.positions), target.symbol, client.GetPosition(target.symbol))
        invariant client.orders == old(client.orders) + Requests(submissions)
        invariant failureCooldowns == WithEntry(old(failureCooldowns), KeyOf(target),
                                                Entry(failureCooldowns, KeyOf(target)))
        invariant run == Loop(settings, env, target, initial,
                              State(client.GetPosition(target.symbol), submissions, receipts,
                                    Entry(failureCooldowns, KeyOf(target))),
                              attempt)
        decreases settings.maxRetries + 1 - attempt
      {
        ghost var s := State(client.GetPosition(target.symbol), submissions, receipts,
                             Entry(failureCooldowns, KeyOf(target)));
        var actual := client.GetPosition(target.symbol);
        var action := Classify(settings, target, actual);
        var cooldown := Entry(failureCooldowns, KeyOf(target));
        if Suppresses(settings, cooldown, target, action, clock(attempt).checked) {
          return Ok(ReconcileResult(
            target.followerId, target.symbol, cooldown.value.resultAction, target.notional, previous,
            Some(AbsNotionalOf(actual)), receipts, false, cooldown.value.message, true));
        }
        EntryLaws(failureCooldowns, KeyOf(target), None, None);
        EntryLaws(old(failureCooldowns), KeyOf(target), cooldown, None);
        failureCooldowns := failureCooldowns - {KeyOf(target)};
        EntryLaws(old(failureCooldowns), KeyOf(target), None, None);
        assert Entry(failureCooldowns, KeyOf(target)) == None;
        if action == Noop {
          return Ok(ReconcileResult(
            target.followerId, target.symbol, if receipts == [] then Noop else ClassifyExecuted(initial, target),
            target.notional, previous, Some(AbsNotionalOf(actual)), receipts, true, NoMessage, false));
        }
        ghost var n := |submissions|;
        ghost var before := client.positions;
        var outcome := PerformAction(client, target, actual, action, env, attempt, n);
        ghost var effect := ExecuteAction(settings, env, target, actual, attempt, n);
        WithLegTwice(before, target.symbol, effect.position, None);
        WithLegTwice(old(client.positions), target.symbol, actual, effect.position);
        RequestsAppend(submissions, effect.submissions);
        submissions := submissions + effect.submissions;
        match outcome {
          case Raises(error) =>
            if !error.IsPerpMirrorError() {
              return Err(error);
            }
            if action in {Open, Add} {
              ghost var entry := StartCooldown(settings, target, action, OrderFailed, Failed(error),
                                               clock(attempt).failed);
              EntryLaws(old(failureCooldowns), KeyOf(target), None, entry);
              StartFailureCooldown(target, action, OrderFailed, Failed(error), clock(attempt).failed);
            }
            return Ok(ReconcileResult(
              target.followerId, target.symbol, OrderFailed, target.notional, previous,
              Some(AbsNotionalOf(client.GetPosition(target.symbol))), receipts, false, Failed(error), false));
          case Stopped(result) =>
            if result.action == RiskBlocked && action in {Open, Add} {
              ghost var entry := StartCooldown(settings, target, action, RiskBlocked, result.message,
                                               clock(attempt).failed);
              EntryLaws(old(failureCooldowns), KeyOf(target), None, entry);
              StartFailureCooldown(target, action, RiskBlocked, result.message, clock(attempt).failed);
            }
            return Ok(result);
          case Orders(new_) =>
            receipts := receipts + new_;
            if settings.dryRun {
              return Ok(ReconcileResult(
                target.followerId, target.symbol, action, target.notional, previous, Some(previous), receipts,
                true, DryRunOnly, false));
            }
        }
        attempt := attempt + 1;
      }
      var final := client.GetPosition(target.symbol);
      return Ok(ReconcileResult(
        target.followerId, target.symbol, ClassifyExecuted(initial, target), target.notional, previous,
        Some(AbsNotionalOf(final)), receipts, Classify(settings, target, final) == Noop, RetriesReached, false));
    }
  }
}
