/**
  Why the concurrent bound needs its k - 1 orders: k runs that all read the portfolio before any of them places
  its order. The bound of module Portfolio is reached for every k, for the total and for the open symbols alike.
*/
module Permits {
  import opened Wrappers
  import opened Models
  import opened Sums
  import opened Exchange
  import opened Executor
  import opened Reconciler
  import opened Portfolio
  import Risk

  const LIMITS := Risk.Config(true, 1.0, 10.0, 10.0, 10.0, 1, 0.0, {}, {}, false, false)
  const LOT := Instrument(1.0, 0.0, None, 0.0, 1.0, 1.0)
  const EMPTY := World(map[], map[])

  /** Limits of ten on the total, ten per order and one open symbol, under a semaphore of `permits`. */
  function Family(permits: nat): Shared {
    Shared(Settings(LIMITS, false, 0.0, 0.0, 0, 0.0), permits, _ => Market(Some(LOT), 1.0))
  }

  function Name(n: nat): (s: string)
    ensures |s| == n
  {
    seq(n, _ => 'A')
  }

  function Names(n: nat): set<string> {
    set k | 0 <= k < n :: Name(k)
  }

  function Want(symbol: string): Target {
    Target("f", symbol, Long, 10.0, 1.0)
  }

  function Ten(): Position {
    Position(Long, 10.0, 10.0)
  }

  lemma NameIsNew(n: nat)
    ensures Name(n) !in Names(n) && Names(n + 1) == Names(n) + {Name(n)}
  {}

  lemma {:induction false} NamesCount(n: nat)
    ensures |Names(n)| == n
  {
    if n > 0 {
      NamesCount(n - 1);
      NameIsNew(n - 1);
    }
  }

  /** The first `n` runs have read an empty portfolio and had their opens cleared. */
  function AllCleared(n: nat): World {
    World(map[], map s | s in Names(n) :: Cleared(Want(s), None, 10.0))
  }

  /** Of `n` cleared runs, the first `placed` have placed their orders. */
  function SomePlaced(n: nat, placed: nat): World {
    World(map s | s in Names(placed) :: Ten(),
          map s | s in Names(n) :: if s in Names(placed) then Ready(Want(s)) else Cleared(Want(s), None, 10.0))
  }

  /** An order for ten USDT at price one buys ten lots. */
  lemma TenLots(symbol: string, id: nat)
    ensures
      var effect := ExecuteDelta(false, Market(Some(LOT), 1.0), LOT, Want(symbol), None, None, 10.0, false, id,
                                 Fill(1.0, false, true));
      effect.position == Some(Ten()) && effect.outcome.Ok?
  {
    assert LOT.BasePerQuantity() == 1.0 && LOT.UnitValue(1.0) == 1.0;
    assert LOT.Lots(10.0) == 10 && Times(10, 1.0) == 10.0;
    assert LOT.RoundDown(10.0) == 10.0;
    assert LOT.QuantityForNotional(10.0, 1.0) == Ok(10.0);
    assert LOT.NotionalForQuantity(10.0, 1.0) == 10.0;
    assert FillOf(LOT, 10.0, 1.0) == 10.0;
  }

  /** An open of ten passes every check of an account that holds nothing. */
  lemma OpenIsAllowed(permits: nat, symbol: string, tasks: map<string, Task>)
    ensures Judge(Family(permits), World(map[], tasks), Want(symbol), None) == Some(Cleared(Want(symbol), None, 10.0))
  {
    assert Risk.Notionals(map[]) == map[];
  }

  /** One more run starts, reads its empty position and has its open cleared. */
  lemma ClearOneMore(permits: nat, tasks: map<string, Task>, name: string,
                     events: seq<Event>) returns (more: seq<Event>)
    requires |tasks| < permits && name !in tasks && Reaches(Family(permits), EMPTY, events, World(map[], tasks))
    ensures Reaches(Family(permits), EMPTY, more, World(map[], tasks[name := Cleared(Want(name), None, 10.0)]))
  {
    var sh := Family(permits);
    var started, observed := tasks[name := Ready(Want(name))], tasks[name := Observed(Want(name), None)];
    OpenIsAllowed(permits, name, observed);
    hide Judge, Reaches, Family;
    assert started[name := Observed(Want(name), None)] == observed;
    assert observed[name := Cleared(Want(name), None, 10.0)] == tasks[name := Cleared(Want(name), None, 10.0)];
    assert Enabled(sh, World(map[], tasks), Start(Want(name))) by {
      PermitsOf(permits);
    }
    OneMore(sh, EMPTY, events, World(map[], tasks), Start(Want(name)));
    OneMore(sh, EMPTY, events + [Start(Want(name))], World(map[], started), Observe(name));
    OneMore(sh, EMPTY, events + [Start(Want(name))] + [Observe(name)], World(map[], observed), Check(name));
    more := events + [Start(Want(name))] + [Observe(name)] + [Check(name)];
  }

  lemma PermitsOf(permits: nat)
    ensures Family(permits).permits == permits
  {}

  lemma AllClearedNext(n: nat)
    ensures Name(n) !in AllCleared(n).tasks && |AllCleared(n).tasks| == n
    ensures AllCleared(n + 1) == World(map[], AllCleared(n).tasks[Name(n) := Cleared(Want(Name(n)), None, 10.0)])
  {
    NamesCount(n);
    NameIsNew(n);
    assert AllCleared(n).tasks.Keys == Names(n);
    hide Names, Name, Want;
  }

  lemma {:induction false} ClearAll(permits: nat, n: nat) returns (events: seq<Event>)
    requires n <= permits
    ensures Reaches(Family(permits), EMPTY, events, AllCleared(n))
  {
    hide AllCleared, Reaches, Names, Name, Family, Want;
    if n == 0 {
      events := [];
      NoneCleared(permits);
    } else {
      events := ClearAll(permits, n - 1);
      AllClearedNext(n - 1);
      ClearedInEmpty(n - 1);
      events := ClearOneMore(permits, AllCleared(n - 1).tasks, Name(n - 1), events);
    }
  }

  lemma NoneCleared(permits: nat)
    ensures Reaches(Family(permits), EMPTY, [], AllCleared(0))
  {
    assert AllCleared(0) == EMPTY;
  }

  lemma ClearedInEmpty(n: nat)
    ensures AllCleared(n) == World(map[], AllCleared(n).tasks)
  {
    hide Names, Want;
  }

  /** One more cleared order is placed and fills. */
  lemma PlaceOneMore(permits: nat, n: nat, placed: nat, events: seq<Event>) returns (more: seq<Event>)
    requires placed < n && Reaches(Family(permits), EMPTY, events, SomePlaced(n, placed))
    ensures Reaches(Family(permits), EMPTY, more, SomePlaced(n, placed + 1))
  {
    var name, w, full := Name(placed), SomePlaced(n, placed), Fill(1.0, false, true);
    SomePlacedNext(n, placed);
    assert AfterSubmit(Family(permits), w, name, placed, full) == SomePlaced(n, placed + 1) by {
      TenLots(name, placed);
      hide ExecuteDelta, SomePlaced, Name, Reaches;
    }
    hide AfterSubmit, Reaches, SomePlaced;
    OneMore(Family(permits), EMPTY, events, w, Submit(name, placed, full));
    more := events + [Submit(name, placed, full)];
  }

  lemma SomePlacedNext(n: nat, placed: nat)
    requires placed < n
    ensures
      var name, w := Name(placed), SomePlaced(n, placed);
      && name in w.tasks && w.tasks[name] == Cleared(Want(name), None, 10.0) && name !in w.positions
      && SomePlaced(n, placed + 1) == World(w.positions[name := Ten()], w.tasks[name := Ready(Want(name))])
  {
    NameIsNew(placed);
    assert Name(placed) in Names(n);
    hide Names, Name, Want;
  }

  lemma {:induction false} PlaceAll(permits: nat, n: nat, placed: nat) returns (events: seq<Event>)
    requires placed <= n <= permits
    ensures Reaches(Family(permits), EMPTY, events, SomePlaced(n, placed))
  {
    hide Reaches, SomePlaced, AllCleared, Family;
    if placed == 0 {
      events := ClearAll(permits, n);
      NonePlaced(n);
    } else {
      events := PlaceAll(permits, n, placed - 1);
      events := PlaceOneMore(permits, n, placed - 1, events);
    }
  }

  lemma NonePlaced(n: nat)
    ensures SomePlaced(n, 0) == AllCleared(n)
  {
    assert Names(0) == {};
    hide Names;
  }

  lemma {:induction false} SumOfTens(amounts: map<string, real>)
    requires forall s :: s in amounts ==> amounts[s] == 10.0
    ensures Sum(amounts) == Times(|amounts|, 10.0)
    decreases |amounts|
  {
    if amounts != map[] {
      var s :| s in amounts;
      SumSplit(amounts, s);
      var rest := amounts - {s};
      assert rest.Keys == amounts.Keys - {s};
      SumOfTens(rest);
      assert |amounts| == |rest| + 1;
      TimesNext(|rest|, 10.0);
      hide Times;
    }
  }

  /** With any number of permits both bounds are reached: k - 1 orders of maximal size and k - 1 symbols too many. */
  lemma BoundsAreReached(permits: nat) returns (events: seq<Event>, to: World)
    requires permits > 0
    ensures Tradable(Family(permits)) && AtRest(Family(permits), EMPTY) && Reaches(Family(permits), EMPTY, events, to)
    ensures Risk.TotalNotional(to.positions) == LIMITS.maxTotalNotional + Times(permits - 1, LIMITS.maxOrderNotional)
    ensures |to.positions| == LIMITS.maxOpenSymbols + permits - 1
  {
    assert LOT.BasePerQuantity() == 1.0;
    events := PlaceAll(permits, permits, permits);
    to := SomePlaced(permits, permits);
    NamesCount(permits);
    assert to.positions.Keys == Names(permits);
    var amounts := Risk.Notionals(to.positions);
    assert amounts.Keys == Names(permits);
    SumOfTens(amounts);
    TimesNext(permits - 1, 10.0);
    hide Times, Names;
    assert Times(permits, 10.0) == Times(permits - 1, 10.0) + 10.0;
  }

  /** No run of the account, however it interleaves with others, ends above the plain limits. */
  ghost predicate KeepsPlainLimits(permits: nat) {
    forall events, to :: Reaches(Family(permits), EMPTY, events, to) ==>
      Risk.TotalNotional(to.positions) <= LIMITS.maxTotalNotional && |to.positions| <= LIMITS.maxOpenSymbols
  }

  /** For these accounts the plain limits hold exactly as long as no two runs can be active at once. */
  lemma PlainLimitsNeedOnePermit(permits: nat)
    ensures KeepsPlainLimits(permits) <==> permits <= 1
  {
    assert LOT.BasePerQuantity() == 1.0;
    if permits <= 1 {
      forall events, to | Reaches(Family(permits), EMPTY, events, to)
        ensures Risk.TotalNotional(to.positions) <= LIMITS.maxTotalNotional && |to.positions| <= LIMITS.maxOpenSymbols
      {
        ConcurrentRunsStayBounded(Family(permits), EMPTY, events, to);
        assert Risk.Notionals(map[]) == map[];
        SubsetIsSmaller(to.positions.Keys, OpenSet(to));
      }
    } else {
      var events, to := BoundsAreReached(permits);
      assert |to.positions| > LIMITS.maxOpenSymbols;
    }
  }
}
