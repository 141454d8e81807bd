/**
  The runs of one follower in a cycle (perpmirror/app.py: gather over _safe_reconcile).

  `Gathered` says what any schedule of the runs may leave: each target has a run of its own, which reads other
  symbols' positions, exchange answers and times as the schedule has it. `AfterRuns` is the schedule in which
  the runs go one after the other.
*/
module Gather {
  import opened Wrappers
  import opened Models
  import opened Exchange
  import opened Executor
  import opened Reconciler
  import opened RunResults

  type Clock = Key -> nat -> Moment

  /** What the runs of one follower read and change. */
  datatype Account = Account(positions: map<string, Position>, cooldowns: map<Key, FailureCooldown>)

  /** `_safe_reconcile`: a run that raises is reported as a failure whose outcome is not known. */
  function Confirmed(t: Target, returned: Result<ReconcileResult, Error>): ReconcileResult {
    match returned
    case Ok(result) => result
    case Err(error) =>
      ReconcileResult(t.followerId, t.symbol, OrderFailed, t.notional, 0.0, None, [], false, Failed(error), false)
  }

  /** The result belongs to the position its run left. */
  ghost predicate Reported(t: Target, result: ReconcileResult, position: Option<Position>) {
    && (result.finalNotional.Some? ==> result.finalNotional.value == AbsNotionalOf(position))
    && (t.side == Flat && result.success && result.finalNotional == Some(0.0) ==> position == None)
  }

  predicate GoodEntries(cooldowns: map<Key, FailureCooldown>) {
    forall key :: key in cooldowns ==> GoodEntry(Some(cooldowns[key]))
  }

  /** No position is worth nothing. */
  predicate Valued(positions: map<string, Position>) {
    forall s :: s in positions ==> positions[s].AbsNotional() != 0.0
  }

  /** Whatever a run reads, its result says flat only of a flat position, live or dry, and for any number of retries. */
  lemma RunReports(c: Settings, e: Env, t: Target, position: Option<Position>, cooldown: Option<FailureCooldown>)
    requires GoodEntry(cooldown) && (c.dryRun && position.Some? ==> position.value.AbsNotional() != 0.0)
    ensures
      var run := Reconcile(c, e, t, position, cooldown);
      && Reported(t, Confirmed(t, run.returned), run.position)
      && GoodEntry(run.cooldown)
      && (c.dryRun ==> run.position == position)
      && (run.returned.Err? ==> !Confirmed(t, run.returned).success && Confirmed(t, run.returned).finalNotional == None)
  {
    if c.maxRetries >= 0 {
      ReportIsTruthful(c, e, t, position, cooldown);
    }
    if c.dryRun {
      DryRunTradesNothing(c, e, t, position, cooldown);
    }
    hide Attempt, ClassifyExecuted;
    if c.maxRetries >= 0 {
      hide Reconcile;
    }
  }

  function Symbols(targets: seq<Target>): set<string> {
    set k | 0 <= k < |targets| :: targets[k].symbol
  }

  function Keys(targets: seq<Target>): set<Key> {
    set k | 0 <= k < |targets| :: KeyOf(targets[k])
  }

  predicate Distinct(targets: seq<Target>) {
    forall j, k :: 0 <= j < k < |targets| ==> targets[j].symbol != targets[k].symbol
  }

  lemma SymbolIn(targets: seq<Target>, k: nat)
    requires k < |targets|
    ensures targets[k].symbol in Symbols(targets) && KeyOf(targets[k]) in Keys(targets)
  {}

  // ----- Any schedule -----

  /** One target's run in a schedule: it starts from the follower's position and entry, and what it leaves stays. */
  ghost predicate Ran(c: Settings, client: FakeExchange, e: Env, t: Target, before: Account, after: Account,
                      result: ReconcileResult)
  {
    && e.market == client.MarketOf(t.symbol)
    && var run := Reconcile(c, e, t, Leg(before.positions, t.symbol), Entry(before.cooldowns, KeyOf(t)));
    && Leg(after.positions, t.symbol) == run.position
    && Entry(after.cooldowns, KeyOf(t)) == run.cooldown
    && result == Confirmed(t, run.returned)
  }

  /** Only these symbols' positions differ. */
  ghost predicate OnlyTouched(symbols: set<string>, before: map<string, Position>, after: map<string, Position>) {
    forall s :: s !in symbols ==> Leg(after, s) == Leg(before, s)
  }

  /** Only these keys' cooldown entries differ. */
  ghost predicate OnlyEntries(keys: set<Key>, before: map<Key, FailureCooldown>, after: map<Key, FailureCooldown>) {
    forall key :: key !in keys ==> Entry(after, key) == Entry(before, key)
  }

  /** Every target has its run and its result, and nothing else of the account has changed. */
  ghost predicate Gathered(c: Settings, client: FakeExchange, envs: seq<Env>, targets: seq<Target>,
                           before: Account, after: Account, results: seq<ReconcileResult>)
  {
    && |envs| == |targets| == |results|
    && (forall k :: 0 <= k < |targets| ==> Ran(c, client, envs[k], targets[k], before, after, results[k]))
    && OnlyTouched(Symbols(targets), before.positions, after.positions)
    && OnlyEntries(Keys(targets), before.cooldowns, after.cooldowns)
  }

  /** The results belong to the positions the account has in the end. */
  ghost predicate Reflected(targets: seq<Target>, results: seq<ReconcileResult>, positions: map<string, Position>) {
    && |results| <= |targets|
    && forall k :: 0 <= k < |results| ==> Reported(targets[k], results[k], Leg(positions, targets[k].symbol))
  }

  /** In whatever schedule the runs went. */
  lemma AnyScheduleReflects(c: Settings, client: FakeExchange, envs: seq<Env>, targets: seq<Target>,
                            before: Account, after: Account, results: seq<ReconcileResult>)
    requires Gathered(c, client, envs, targets, before, after, results)
    requires GoodEntries(before.cooldowns) && (c.dryRun ==> Valued(before.positions))
    ensures Reflected(targets, results, after.positions)
    ensures GoodEntries(after.cooldowns) && (c.dryRun ==> Valued(after.positions))
  {
    forall k | 0 <= k < |targets|
      ensures Reported(targets[k], results[k], Leg(after.positions, targets[k].symbol))
      ensures GoodEntry(Entry(after.cooldowns, KeyOf(targets[k])))
      ensures c.dryRun ==> Leg(after.positions, targets[k].symbol) == Leg(before.positions, targets[k].symbol)
    {
      var t := targets[k];
      assert Ran(c, client, envs[k], t, before, after, results[k]);
      hide Reconcile, Gathered, Reported;
      RunReports(c, envs[k], t, Leg(before.positions, t.symbol), Entry(before.cooldowns, KeyOf(t)));
    }
    hide Ran, Reported;
    forall key | key in after.cooldowns
      ensures GoodEntry(Some(after.cooldowns[key]))
    {
      if key !in Keys(targets) {
        assert Entry(after.cooldowns, key) == Entry(before.cooldowns, key);
      }
    }
    if c.dryRun {
      forall s | s in after.positions
        ensures after.positions[s].AbsNotional() != 0.0
      {
        assert Leg(after.positions, s) == Leg(before.positions, s);
      }
    }
  }

  // ----- One after the other -----

  /** The account and the number of orders it has seen, between two runs. */
  datatype Turn = Turn(account: Account, orders: nat)

  function EnvOf(client: FakeExchange, clock: Clock, turn: Turn, t: Target): Env {
    Alone(client.MarketOf(t.symbol), turn.account.positions, client.script, turn.orders, clock(KeyOf(t)))
  }

  ghost function RunOf(c: Settings, client: FakeExchange, clock: Clock, turn: Turn, t: Target): Run {
    Reconcile(c, EnvOf(client, clock, turn, t), t, Leg(turn.account.positions, t.symbol),
              Entry(turn.account.cooldowns, KeyOf(t)))
  }

  ghost function AfterRun(turn: Turn, t: Target, run: Run): Turn {
    Turn(Account(WithLeg(turn.account.positions, t.symbol, run.position),
                 WithEntry(turn.account.cooldowns, KeyOf(t), run.cooldown)),
         turn.orders + |run.submissions|)
  }

  ghost function AfterRuns(c: Settings, client: FakeExchange, clock: Clock, turn: Turn, targets: seq<Target>): Turn {
    if targets == [] then turn
    else
      var before := AfterRuns(c, client, clock, turn, targets[..|targets| - 1]);
      var last := targets[|targets| - 1];
      AfterRun(before, last, RunOf(c, client, clock, before, last))
  }

  /** What the k-th run reads. */
  ghost function EnvAt(c: Settings, client: FakeExchange, clock: Clock, turn: Turn, targets: seq<Target>, k: nat): Env
    requires k < |targets|
  {
    EnvOf(client, clock, AfterRuns(c, client, clock, turn, targets[..k]), targets[k])
  }

  ghost function EnvsInTurn(c: Settings, client: FakeExchange, clock: Clock, turn: Turn,
                            targets: seq<Target>): seq<Env>
  {
    seq(|targets|, k requires 0 <= k < |targets| => EnvAt(c, client, clock, turn, targets, k))
  }

  /** The results so far are those of the first runs. */
  ghost predicate Replayed(c: Settings, client: FakeExchange, clock: Clock, turn: Turn, targets: seq<Target>,
                           results: seq<ReconcileResult>)
  {
    |results| <= |targets| && forall k :: 0 <= k < |results| ==>
      var now := AfterRuns(c, client, clock, turn, targets[..k]);
      results[k] == Confirmed(targets[k], RunOf(c, client, clock, now, targets[k]).returned)
  }

  lemma AfterRunsNext(c: Settings, client: FakeExchange, clock: Clock, turn: Turn, targets: seq<Target>, k: nat)
    requires k < |targets|
    ensures
      var now := AfterRuns(c, client, clock, turn, targets[..k]);
      AfterRuns(c, client, clock, turn, targets[..k + 1]) == AfterRun(now, targets[k],
                                                                      RunOf(c, client, clock, now, targets[k]))
  {
    hide RunOf, AfterRun;
    assert targets[..k + 1][..k] == targets[..k];
  }

  lemma ReplayedNext(c: Settings, client: FakeExchange, clock: Clock, turn: Turn, targets: seq<Target>,
                     results: seq<ReconcileResult>)
    requires |results| < |targets| && Replayed(c, client, clock, turn, targets, results)
    ensures
      var t := targets[|results|];
      var run := RunOf(c, client, clock, AfterRuns(c, client, clock, turn, targets[..|results|]), t);
      Replayed(c, client, clock, turn, targets, results + [Confirmed(t, run.returned)])
  {
    hide RunOf, AfterRuns, Confirmed;
  }

  /** A run changes its own position and entry and no other. */
  lemma RunTouches(turn: Turn, t: Target, run: Run)
    ensures OnlyTouched({t.symbol}, turn.account.positions, AfterRun(turn, t, run).account.positions)
    ensures Leg(AfterRun(turn, t, run).account.positions, t.symbol) == run.position
    ensures OnlyEntries({KeyOf(t)}, turn.account.cooldowns, AfterRun(turn, t, run).account.cooldowns)
    ensures Entry(AfterRun(turn, t, run).account.cooldowns, KeyOf(t)) == run.cooldown
  {}

  lemma TouchedOn(symbols: set<string>, more: set<string>, first: map<string, Position>, middle: map<string, Position>,
                  last: map<string, Position>)
    requires OnlyTouched(symbols, first, middle) && OnlyTouched(more, middle, last)
    ensures OnlyTouched(symbols + more, first, last)
  {
    hide Leg;
  }

  lemma EntriesOn(keys: set<Key>, more: set<Key>, first: map<Key, FailureCooldown>, middle: map<Key, FailureCooldown>,
                  last: map<Key, FailureCooldown>)
    requires OnlyEntries(keys, first, middle) && OnlyEntries(more, middle, last)
    ensures OnlyEntries(keys + more, first, last)
  {
    hide Entry;
  }

  lemma NoRunTouches(c: Settings, client: FakeExchange, clock: Clock, turn: Turn)
    ensures AfterRuns(c, client, clock, turn, []) == turn
    ensures OnlyTouched(Symbols([]), turn.account.positions, turn.account.positions)
    ensures OnlyEntries(Keys([]), turn.account.cooldowns, turn.account.cooldowns)
  {}

  lemma {:induction false} RunsTouchOnlyTargets(c: Settings, client: FakeExchange, clock: Clock, turn: Turn,
                                                targets: seq<Target>, n: nat)
    requires n <= |targets|
    ensures
      var after := AfterRuns(c, client, clock, turn, targets[..n]).account;
      && OnlyTouched(Symbols(targets[..n]), turn.account.positions, after.positions)
      && OnlyEntries(Keys(targets[..n]), turn.account.cooldowns, after.cooldowns)
  {
    hide AfterRuns, AfterRun, RunOf, OnlyTouched, OnlyEntries, Symbols, Keys, Distinct;
    if n == 0 {
      assert targets[..0] == [];
      NoRunTouches(c, client, clock, turn);
    } else {
      RunsTouchOnlyTargets(c, client, clock, turn, targets, n - 1);
      AfterRunsNext(c, client, clock, turn, targets, n - 1);
      var now, t := AfterRuns(c, client, clock, turn, targets[..n - 1]), targets[n - 1];
      var after := AfterRun(now, t, RunOf(c, client, clock, now, t));
      RunTouches(now, t, RunOf(c, client, clock, now, t));
      SymbolsNext(targets, n - 1);
      TouchedOn(Symbols(targets[..n - 1]), {t.symbol}, turn.account.positions, now.account.positions,
                after.account.positions);
      EntriesOn(Keys(targets[..n - 1]), {KeyOf(t)}, turn.account.cooldowns, now.account.cooldowns,
                after.account.cooldowns);
    }
  }

  lemma SymbolsNext(targets: seq<Target>, k: nat)
    requires k < |targets|
    ensures Symbols(targets[..k + 1]) == Symbols(targets[..k]) + {targets[k].symbol}
    ensures Keys(targets[..k + 1]) == Keys(targets[..k]) + {KeyOf(targets[k])}
    ensures Distinct(targets) ==>
      targets[k].symbol !in Symbols(targets[..k]) && KeyOf(targets[k]) !in Keys(targets[..k])
  {
    assert targets[..k + 1][k] == targets[k];
    assert forall j :: 0 <= j < k ==> targets[..k + 1][j] == targets[..k][j] == targets[j];
  }

  /** The k-th run finds its own position and entry as they were at first, and what it leaves is there in the end. */
  lemma {:induction false} OwnRunStays(c: Settings, client: FakeExchange, clock: Clock, turn: Turn,
                                       targets: seq<Target>, k: nat, n: nat)
    requires Distinct(targets) && k < n <= |targets|
    ensures
      var t := targets[k];
      var now, after :=
        AfterRuns(c, client, clock, turn, targets[..k]), AfterRuns(c, client, clock, turn, targets[..n]).account;
      var run := RunOf(c, client, clock, now, t);
      && Leg(now.account.positions, t.symbol) == Leg(turn.account.positions, t.symbol)
      && Entry(now.account.cooldowns, KeyOf(t)) == Entry(turn.account.cooldowns, KeyOf(t))
      && Leg(after.positions, t.symbol) == run.position && Entry(after.cooldowns, KeyOf(t)) == run.cooldown
    decreases n
  {
    hide AfterRuns, AfterRun, RunOf, Leg, Entry;
    var last := targets[n - 1];
    var before := AfterRuns(c, client, clock, turn, targets[..n - 1]);
    AfterRunsNext(c, client, clock, turn, targets, n - 1);
    RunTouches(before, last, RunOf(c, client, clock, before, last));
    if k == n - 1 {
      RunsTouchOnlyTargets(c, client, clock, turn, targets, k);
      SymbolsNext(targets, k);
    } else {
      OwnRunStays(c, client, clock, turn, targets, k, n - 1);
      assert targets[k].symbol != last.symbol;
    }
  }

  /** Going one after the other is one of the schedules. */
  lemma InTurnIsGathered(c: Settings, client: FakeExchange, clock: Clock, turn: Turn, targets: seq<Target>,
                         results: seq<ReconcileResult>)
    requires Distinct(targets) && |results| == |targets| && Replayed(c, client, clock, turn, targets, results)
    ensures Gathered(c, client, EnvsInTurn(c, client, clock, turn, targets), targets, turn.account,
                     AfterRuns(c, client, clock, turn, targets).account, results)
  {
    var envs, after := EnvsInTurn(c, client, clock, turn, targets), AfterRuns(c, client, clock, turn, targets).account;
    assert targets[..|targets|] == targets;
    RunsTouchOnlyTargets(c, client, clock, turn, targets, |targets|);
    hide AfterRuns, Leg, Entry, Reconcile, Symbols, Keys, OnlyTouched, OnlyEntries, Confirmed;
    forall k | 0 <= k < |targets|
      ensures Ran(c, client, envs[k], targets[k], turn.account, after, results[k])
    {
      OwnRunStays(c, client, clock, turn, targets, k, |targets|);
    }
  }
}
