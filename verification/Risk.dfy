/** The pre-trade risk check (perpmirror/risk/manager.py). */
module Risk {
  import opened Wrappers
  import opened Models
  import opened Sums
  import opened Exchange

  datatype Config = Config(
    allowShort: bool,
    maxLeverage: real,
    maxSingleSymbolNotional: real,
    maxTotalNotional: real,
    maxOrderNotional: real,
    maxOpenSymbols: int,
    minOrderNotional: real,
    symbolAllowlist: set<string>,
    symbolBlocklist: set<string>,
    killSwitch: bool,
    killSwitchClosePositions: bool)

  datatype Rule =
    | KillSwitch
    | AllowShort
    | SymbolAllowlist
    | SymbolBlocklist
    | MaxLeverage
    | MaxSingleSymbolNotional
    | MaxOrderNotional
    | MaxTotalNotional
    | MaxOpenSymbols
    | MinOrderNotional

  datatype Decision = Allowed | Blocked(rule: Rule)

  ghost function Notionals(positions: map<string, Position>): map<string, real> {
    map s | s in positions :: positions[s].AbsNotional()
  }

  ghost function TotalNotional(positions: map<string, Position>): real {
    Sum(Notionals(positions))
  }

  /** The branch chain, given the two portfolio figures it reads. */
  function Decide(config: Config, target: Target, actual: Option<Position>,
                  currentTotal: real, openSymbols: nat, action: Action, orderNotional: real): Decision
  {
    if action in {Close, Reduce} then
      if config.killSwitch && !config.killSwitchClosePositions then Blocked(KillSwitch) else Allowed
    else if action !in {Open, Add} then Allowed
    else if config.killSwitch then Blocked(KillSwitch)
    else if target.side == Short && !config.allowShort then Blocked(AllowShort)
    else if config.symbolAllowlist != {} && target.symbol !in config.symbolAllowlist then Blocked(SymbolAllowlist)
    else if target.symbol in config.symbolBlocklist then Blocked(SymbolBlocklist)
    else if target.leverage > config.maxLeverage then Blocked(MaxLeverage)
    else if target.notional > config.maxSingleSymbolNotional then Blocked(MaxSingleSymbolNotional)
    else if orderNotional > config.maxOrderNotional then Blocked(MaxOrderNotional)
    else if currentTotal - AbsNotionalOf(actual) + target.notional > config.maxTotalNotional then
      Blocked(MaxTotalNotional)
    else if actual.None? && openSymbols >= config.maxOpenSymbols then Blocked(MaxOpenSymbols)
    else if orderNotional < config.minOrderNotional then Blocked(MinOrderNotional)
    else Allowed
  }

  ghost function Check(config: Config, target: Target, actual: Option<Position>,
                       positions: map<string, Position>, action: Action, orderNotional: real): Decision
  {
    Decide(config, target, actual, TotalNotional(positions), |positions|, action, orderNotional)
  }

  /** What each rule forbids, for an order that opens or adds. */
  predicate Violates(config: Config, target: Target, actual: Option<Position>,
                     currentTotal: real, openSymbols: nat, orderNotional: real, rule: Rule)
  {
    match rule
    case KillSwitch => config.killSwitch
    case AllowShort => target.side == Short && !config.allowShort
    case SymbolAllowlist => config.symbolAllowlist != {} && target.symbol !in config.symbolAllowlist
    case SymbolBlocklist => target.symbol in config.symbolBlocklist
    case MaxLeverage => target.leverage > config.maxLeverage
    case MaxSingleSymbolNotional => target.notional > config.maxSingleSymbolNotional
    case MaxOrderNotional => orderNotional > config.maxOrderNotional
    case MaxTotalNotional => currentTotal - AbsNotionalOf(actual) + target.notional > config.maxTotalNotional
    case MaxOpenSymbols => actual.None? && openSymbols >= config.maxOpenSymbols
    case MinOrderNotional => orderNotional < config.minOrderNotional
  }

  /** The order in which the rules are looked at. */
  function Rank(rule: Rule): nat {
    match rule
    case KillSwitch => 0
    case AllowShort => 1
    case SymbolAllowlist => 2
    case SymbolBlocklist => 3
    case MaxLeverage => 4
    case MaxSingleSymbolNotional => 5
    case MaxOrderNotional => 6
    case MaxTotalNotional => 7
    case MaxOpenSymbols => 8
    case MinOrderNotional => 9
  }

  /**
    An increase is allowed if and only if it violates no rule, and otherwise blocked by the first rule it
    violates. Closing and reducing stop at nothing but a kill switch that forbids them too.
  */
  lemma DecisionIsFirstViolation(config: Config, target: Target, actual: Option<Position>,
                                 currentTotal: real, openSymbols: nat, action: Action, orderNotional: real, rule: Rule)
    ensures
      var decision := Decide(config, target, actual, currentTotal, openSymbols, action, orderNotional);
      var violates := Violates(config, target, actual, currentTotal, openSymbols, orderNotional, rule);
      && (action in {Open, Add} && violates ==> decision.Blocked? && Rank(decision.rule) <= Rank(rule))
      && (action in {Open, Add} && decision == Blocked(rule) ==> violates)
      && (action in {Close, Reduce} ==> (decision.Blocked? <==> config.killSwitch && !config.killSwitchClosePositions))
  {}

  /** Adds up the open notionals one position at a time. */
  method CurrentTotal(positions: map<string, Position>) returns (total: real)
    ensures total == TotalNotional(positions)
  {
    total := 0.0;
    var rest := positions;
    while rest != map[]
      invariant rest.Keys <= positions.Keys
      invariant forall s :: s in rest ==> rest[s] == positions[s]
      invariant total + TotalNotional(rest) == TotalNotional(positions)
      decreases |rest|
    {
      var s :| s in rest;
      SumSplit(Notionals(rest), s);
      assert Notionals(rest - {s}) == Notionals(rest) - {s};
      total := total + rest[s].AbsNotional();
      rest := rest - {s};
    }
    assert Notionals(rest) == map[];
  }

  method CheckPortfolio(config: Config, target: Target, actual: Option<Position>,
                        positions: map<string, Position>, action: Action, orderNotional: real)
    returns (decision: Decision)
    ensures decision == Check(config, target, actual, positions, action, orderNotional)
  {
    var total := CurrentTotal(positions);
    decision := Decide(config, target, actual, total, |positions|, action, orderNotional);
  }

  /** One symbol's share of the total can be split off. */
  lemma PortfolioTotal(positions: map<string, Position>, symbol: string, own: Option<Position>)
    ensures TotalNotional(WithLeg(positions, symbol, own)) == TotalNotional(positions - {symbol}) + AbsNotionalOf(own)
  {
    var others := Notionals(positions - {symbol});
    match own
    case None =>
    case Some(p) =>
      assert Notionals(positions[symbol := p]) == others[symbol := p.AbsNotional()];
      SumUpdate(others, symbol, p.AbsNotional());
  }
}
