/** Targets from a leader position (perpmirror/copy/calculator.py). */
module Calculator {
  import opened Wrappers
  import opened Models

  datatype CopyMode = Fixed | Ratio

  datatype Follower = Follower(
    id: string,
    copyMode: CopyMode,
    fixedMargin: Option<real>,
    copyRatio: Option<real>,
    copyLeverage: bool,
    fixedLeverage: real,
    maxLeverage: real)

  datatype LeaderPosition = LeaderPosition(side: PositionSide, notional: real, leverage: real)

  function OrZero(x: Option<real>): real {
    if x.Some? then x.value else 0.0
  }

  function SideOf(leader: Option<LeaderPosition>): PositionSide {
    if leader.Some? then leader.value.side else Flat
  }

  function NotionalOf(leader: Option<LeaderPosition>): real {
    if leader.Some? then Abs(leader.value.notional) else 0.0
  }

  function LeverageFor(follower: Follower, leader: Option<LeaderPosition>): real {
    var leaderLeverage := if leader.Some? then leader.value.leverage else follower.fixedLeverage;
    Min(if follower.copyLeverage then leaderLeverage else follower.fixedLeverage, follower.maxLeverage)
  }

  function Calculate(follower: Follower, leader: Option<LeaderPosition>,
                     leaderEquity: real, followerEquity: real, symbol: string): Result<Target, Error>
  {
    var leverage := LeverageFor(follower, leader);
    if leverage <= 0.0 then Err(UnsafeOperation)
    else match follower.copyMode
      case Fixed => Ok(FixedTarget(follower, symbol, SideOf(leader), leverage))
      case Ratio =>
        RatioTarget(follower, symbol, SideOf(leader), NotionalOf(leader), leaderEquity, followerEquity, leverage)
  }

  function FixedTarget(follower: Follower, symbol: string, side: PositionSide, leverage: real): Target {
    Target(follower.id, symbol, side, if side != Flat then OrZero(follower.fixedMargin) * leverage else 0.0, leverage)
  }

  function RatioTarget(follower: Follower, symbol: string, side: PositionSide, leaderNotional: real,
                       leaderEquity: real, followerEquity: real, leverage: real): Result<Target, Error>
  {
    if side != Flat && leaderEquity <= 0.0 then Err(UnsafeOperation)
    else if followerEquity < 0.0 then Err(UnsafeOperation)
    else
      var exposure := if leaderEquity > 0.0 then leaderNotional / leaderEquity else 0.0;
      var notional := if side != Flat then followerEquity * exposure * OrZero(follower.copyRatio) else 0.0;
      Ok(Target(follower.id, symbol, side, notional, leverage))
  }
}
