/**
  What a follower's part of a cycle, and a whole cycle, must do (perpmirror/app.py: full_reconcile), as relations
  between the books and accounts before and after. The schedule of a follower's runs is left open.
*/
module Rounds {
  import opened Wrappers
  import opened Models
  import opened Exchange
  import opened Executor
  import opened Reconciler
  import opened Calculator
  import opened Gather
  import Ownership

  function LeaderAt(leader: map<string, LeaderPosition>, symbol: string): Option<LeaderPosition> {
    if symbol in leader then Some(leader[symbol]) else None
  }

  /** What a cycle knows when it plans the runs of a follower. */
  datatype Snapshot = Snapshot(
    config: Follower,
    leader: map<string, LeaderPosition>,
    leaderEquity: real,
    followerEquity: real,
    supported: set<string>)
  {
    /** The target of a symbol; none if it is not supported, not the follower's business, or cannot be worked out. */
    function TargetFor(managed: set<string>, symbol: string): (r: Option<Target>)
      ensures r.Some? ==> r.value.symbol == symbol
      ensures r.Some? && symbol !in leader ==> r.value.side == Flat
    {
      if symbol in leader && symbol !in supported then None
      else if symbol !in leader && symbol !in managed then None
      else match Calculate(config, LeaderAt(leader, symbol), leaderEquity, followerEquity, symbol)
        case Ok(target) => Some(target)
        case Err(_) => None
    }

    function Targeted(managed: set<string>, symbols: set<string>): set<string> {
      set s | s in symbols && TargetFor(managed, s).Some?
    }

    /** The new symbols that are claimed. */
    function Claims(symbols: set<string>): set<string> {
      symbols * leader.Keys * supported
    }
  }

  lemma TargetedOneMore(snapshot: Snapshot, managed: set<string>, done: set<string>, symbol: string,
                        targets: seq<Target>)
    requires Symbols(targets) == snapshot.Targeted(managed, done) && Distinct(targets) && symbol !in done
    ensures
      var more := snapshot.Targeted(managed, done + {symbol});
      match snapshot.TargetFor(managed, symbol)
      case Some(target) => Symbols(targets + [target]) == more && Distinct(targets + [target])
      case None => Symbols(targets) == more
  {
    var target := snapshot.TargetFor(managed, symbol);
    hide Snapshot.TargetFor;
    if target.Some? {
      SymbolsOneMore(targets, target.value);
    }
  }

  lemma SymbolsOneMore(targets: seq<Target>, t: Target)
    ensures Symbols(targets + [t]) == Symbols(targets) + {t.symbol}
    ensures Distinct(targets) && t.symbol !in Symbols(targets) ==> Distinct(targets + [t])
  {
    var more := targets + [t];
    assert more[|targets|] == t;
    assert forall k :: 0 <= k < |targets| ==> more[k] == targets[k];
    forall s | s in Symbols(targets)
      ensures s in Symbols(more)
    {
      var k :| 0 <= k < |targets| && targets[k].symbol == s;
      assert more[k].symbol == s;
    }
  }

  lemma NoTargets(snapshot: Snapshot, managed: set<string>)
    ensures snapshot.Targeted(managed, {}) == {} && Symbols([]) == {} && Distinct([])
  {}

  lemma TargetDepends(snapshot: Snapshot, managed: set<string>, other: set<string>, symbol: string)
    requires symbol in managed <==> symbol in other
    ensures snapshot.TargetFor(managed, symbol) == snapshot.TargetFor(other, symbol)
  {
    hide Calculate;
  }

  /** The books once the symbols done so far are claimed. */
  function Claiming(books: Ownership.Books, f: string, claims: set<string>): Ownership.Books
    requires f in books.followers
  {
    books.With(f, books.followers[f].(managed := books.followers[f].managed + claims))
  }

  lemma ClaimingOneMore(books: Ownership.Books, snapshot: Snapshot, done: set<string>, symbol: string)
    requires snapshot.config.id in books.followers
    ensures Claiming(books, snapshot.config.id, snapshot.Claims({})) == books
    ensures
      var f := snapshot.config.id;
      var now := Claiming(books, f, snapshot.Claims(done));
      var more := Claiming(books, f, snapshot.Claims(done + {symbol}));
      && (symbol !in done ==> (symbol in now.followers[f].managed <==> symbol in books.followers[f].managed))
      && more == if symbol in snapshot.Claims({symbol}) then now.With(f, now.followers[f].Claim(symbol)) else now
  {
    var own := books.followers[snapshot.config.id];
    assert own.managed + snapshot.Claims({}) == own.managed;
    assert books.followers[snapshot.config.id := own] == books.followers;
    var now, more := own.managed + snapshot.Claims(done), own.managed + snapshot.Claims(done + {symbol});
    if symbol in snapshot.Claims({symbol}) {
      assert more == now + {symbol};
    } else {
      assert more == now;
    }
  }

  lemma ClaimTwice(books: Ownership.Books, f: string, symbol: string)
    requires f in books.followers && symbol in books.followers[f].managed
    ensures books.With(f, books.followers[f].Claim(symbol)) == books
  {
    assert books.followers[f].managed + {symbol} == books.followers[f].managed;
    assert books.followers[f := books.followers[f]] == books.followers;
  }

  /** Symbols whose run reports an open position. */
  function Held(targets: seq<Target>, results: seq<ReconcileResult>): set<string> {
    set k | 0 <= k < |targets| && k < |results| && ReportsOpen(results[k]) :: targets[k].symbol
  }

  predicate ReportsOpen(result: ReconcileResult) {
    result.finalNotional.Some? && result.finalNotional.value > 0.0
  }

  /** Symbols of successful runs that report flat where the leader is flat. */
  function Flattened(leader: set<string>, targets: seq<Target>, results: seq<ReconcileResult>): set<string> {
    set k | 0 <= k < |targets| && k < |results| && ReportsFlat(leader, targets[k], results[k]) :: targets[k].symbol
  }

  predicate ReportsFlat(leader: set<string>, t: Target, result: ReconcileResult) {
    t.symbol !in leader && result.success && result.finalNotional == Some(0.0)
  }

  /** The books once some results have been acted on: open positions are marked, flat ones released. */
  function Concluded(books: Ownership.Books, f: string, held: set<string>, flat: set<string>): Ownership.Books
    requires f in books.followers
  {
    var own := books.followers[f];
    books.With(f, own.(managed := own.managed - flat, observed := own.observed + held - flat))
  }

  lemma HeldOneMore(leader: set<string>, targets: seq<Target>, results: seq<ReconcileResult>, k: nat)
    requires |results| == |targets| && k < |targets| && Distinct(targets)
    ensures
      var symbol, held, flat := targets[k].symbol, Held(targets, results[..k]), Flattened(leader, targets,
                                                                                          results[..k]);
      && symbol !in held && symbol !in flat
      && Held(targets, results[..k + 1]) == held + (if ReportsOpen(results[k]) then {symbol} else {})
      && Flattened(leader, targets, results[..k + 1])
           == flat + (if ReportsFlat(leader, targets[k], results[k]) then {symbol} else {})
      && (symbol in Flattened(leader, targets, results) <==> ReportsFlat(leader, targets[k], results[k]))
  {
    hide ReportsOpen, ReportsFlat;
    var less, more := results[..k], results[..k + 1];
    assert forall j :: 0 <= j < k ==> less[j] == more[j] == results[j];
    assert more[k] == results[k];
  }

  lemma ConcludedOneMore(books: Ownership.Books, f: string, leader: set<string>, targets: seq<Target>,
                         results: seq<ReconcileResult>, k: nat)
    requires f in books.followers && Symbols(targets) <= books.followers[f].managed
    requires |results| == |targets| && k < |targets| && Distinct(targets)
    ensures
      var now := Concluded(books, f, Held(targets, results[..k]), Flattened(leader, targets, results[..k]));
      var more := Concluded(books, f, Held(targets, results[..k + 1]), Flattened(leader, targets, results[..k + 1]));
      var symbol := targets[k].symbol;
      && f in now.followers
      && more == if ReportsOpen(results[k]) then now.With(f, now.followers[f].Mark(symbol))
                 else if ReportsFlat(leader, targets[k], results[k]) then now.With(f, now.followers[f].Release(symbol))
                 else now
  {
    HeldOneMore(leader, targets, results, k);
    assert targets[k].symbol in Symbols(targets);
    hide Held, Flattened, Symbols, Distinct;
    OneMoreConcluded(books.followers[f], targets[k].symbol, Held(targets, results[..k]),
                     Flattened(leader, targets, results[..k]));
  }

  lemma OneMoreConcluded(own: Ownership.FollowerOwnership, symbol: string, held: set<string>, flat: set<string>)
    requires symbol in own.managed && symbol !in flat
    ensures own.observed + held - flat + {symbol} == own.observed + (held + {symbol}) - flat
    ensures own.managed - flat - {symbol} == own.managed - (flat + {symbol})
    ensures own.observed + held - flat - {symbol} == own.observed + held - (flat + {symbol})
    ensures held + {} == held && flat + {} == flat
  {}

  lemma NothingConcluded(books: Ownership.Books, f: string, leader: set<string>, targets: seq<Target>)
    requires f in books.followers
    ensures Concluded(books, f, Held(targets, []), Flattened(leader, targets, [])) == books
  {
    var own := books.followers[f];
    assert Held(targets, []) == {} && Flattened(leader, targets, []) == {};
    assert own.observed + {} - {} == own.observed && own.managed - {} == own.managed;
    assert books.followers[f := own] == books.followers;
  }

  lemma ClaimingKeepsPartition(books: Ownership.Books, f: string, leader: set<string>, claims: set<string>)
    requires books.Partitioned() && f in books.followers && claims <= books.Candidates(f, leader)
    ensures Claiming(books, f, claims).Partitioned()
    ensures Claiming(books, f, claims).followers.Keys == books.followers.Keys
    ensures books.Candidates(f, leader) <= Claiming(books, f, claims).Candidates(f, leader)
  {
    assert books.followers[f].Disjoint();
    assert Claiming(books, f, claims).followers[f].Disjoint();
  }

  lemma ConcludedKeepsPartition(books: Ownership.Books, f: string, held: set<string>, flat: set<string>)
    requires books.Partitioned() && f in books.followers && held <= books.followers[f].managed
    ensures Concluded(books, f, held, flat).Partitioned()
    ensures Concluded(books, f, held, flat).followers.Keys == books.followers.Keys
  {
    assert books.followers[f].Disjoint();
    assert Concluded(books, f, held, flat).followers[f].Disjoint();
  }

  // ----- A follower's part of a cycle -----

  /** What it starts from, what it decides, what its runs read, and what it leaves. */
  datatype Part = Part(
    books: Ownership.Books,
    account: Account,
    targets: seq<Target>,
    envs: seq<Env>,
    results: seq<ReconcileResult>,
    booksAfter: Ownership.Books,
    after: Account)

  /** The books once the follower's open symbols have been looked at. */
  function Surveyed(books: Ownership.Books, f: string, current: set<string>, leader: set<string>): Ownership.Books {
    Ownership.Apply(Ownership.Apply(books, Ownership.FollowerSeen(f, current, leader)),
                    Ownership.UnmanagedProtected(f, current))
  }

  /** The targets are those of the candidates. */
  ghost predicate Planned(snapshot: Snapshot, seen: Ownership.Books, targets: seq<Target>) {
    var f, leader := snapshot.config.id, snapshot.leader.Keys;
    && f in seen.followers
    && var symbols, managed := seen.Candidates(f, leader), seen.followers[f].managed;
    && Distinct(targets) && Symbols(targets) == snapshot.Targeted(managed, symbols)
    && forall t :: t in targets ==> snapshot.TargetFor(managed, t.symbol) == Some(t)
  }

  /** The new symbols among the candidates are claimed and every result is booked. */
  function Settlement(snapshot: Snapshot, seen: Ownership.Books, targets: seq<Target>,
                      results: seq<ReconcileResult>): Ownership.Books
    requires snapshot.config.id in seen.followers
  {
    var f, leader := snapshot.config.id, snapshot.leader.Keys;
    Concluded(Claiming(seen, f, snapshot.Claims(seen.Candidates(f, leader))), f, Held(targets, results),
              Flattened(leader, targets, results))
  }

  /** The candidates' targets, one run each in some schedule, and the books that follow from the results. */
  ghost predicate Complete(c: Settings, client: FakeExchange, snapshot: Snapshot, part: Part) {
    var seen := Surveyed(part.books, snapshot.config.id, part.account.positions.Keys, snapshot.leader.Keys);
    && Planned(snapshot, seen, part.targets)
    && Gathered(c, client, part.envs, part.targets, part.account, part.after, part.results)
    && part.booksAfter == Settlement(snapshot, seen, part.targets, part.results)
  }

  // ----- A whole cycle -----

  /** What a cycle reads of the leader and of the followers' accounts. */
  datatype LeaderMarket = LeaderMarket(
    leader: map<string, LeaderPosition>,
    equity: real,
    equities: map<string, real>,
    supported: map<string, set<string>>)

  /** What a cycle is run on; a follower without an equity is one whose snapshot failed. */
  function SnapshotOf(config: Follower, market: LeaderMarket): Snapshot {
    Snapshot(config, market.leader, market.equity,
             if config.id in market.equities then market.equities[config.id] else 0.0,
             if config.id in market.supported then market.supported[config.id] else {})
  }

  /** The books, the cooldown table and every follower's positions. */
  datatype Ledger = Ledger(books: Ownership.Books, cooldowns: map<Key, FailureCooldown>, positions: map<string,
                           map<string, Position>>)

  /** One part per follower, none for a failed snapshot. */
  type Parts = seq<Option<Part>>

  function AfterPart(ledger: Ledger, config: Follower, part: Option<Part>): Ledger {
    match part
    case None => ledger
    case Some(done) =>
      Ledger(done.booksAfter, done.after.cooldowns, ledger.positions[config.id := done.after.positions])
  }

  function AfterParts(ledger: Ledger, followers: seq<Follower>, parts: Parts): Ledger
    requires |parts| <= |followers|
    decreases |parts|
  {
    if parts == [] then ledger
    else
      var last := |parts| - 1;
      AfterPart(AfterParts(ledger, followers, parts[..last]), followers[last], parts[last])
  }

  function AllResults(parts: Parts): seq<ReconcileResult> {
    if parts == [] then []
    else AllResults(parts[..|parts| - 1]) +
         match parts[|parts| - 1] case Some(part) => part.results case None => []
  }

  /**
    A follower is skipped if and only if its snapshot failed; otherwise its part is complete and begins with the
    ledger as it is.
  */
  ghost predicate PartDone(c: Settings, clients: map<string, FakeExchange>, config: Follower, market: LeaderMarket,
                           ledger: Ledger, part: Option<Part>)
  {
    && config.id in clients && config.id in ledger.positions
    && (part.Some? <==> config.id in market.equities)
    && (part.Some? ==>
          && Complete(c, clients[config.id], SnapshotOf(config, market), part.value)
          && part.value.books == ledger.books
          && part.value.account == Account(ledger.positions[config.id], ledger.cooldowns))
  }

  /** The first followers' parts are done, each from the ledger that the one before it left. */
  ghost predicate PartsDone(c: Settings, clients: map<string, FakeExchange>, followers: seq<Follower>,
                            market: LeaderMarket, ledger: Ledger, parts: Parts)
  {
    && |parts| <= |followers|
    && forall k :: 0 <= k < |parts| ==>
         PartDone(c, clients, followers[k], market, AfterParts(ledger, followers, parts[..k]), parts[k])
  }

  lemma NextPartDone(c: Settings, clients: map<string, FakeExchange>, followers: seq<Follower>, market: LeaderMarket,
                     ledger: Ledger,
                     parts: Parts, part: Option<Part>)
    requires PartsDone(c, clients, followers, market, ledger, parts) && |parts| < |followers|
    requires PartDone(c, clients, followers[|parts|], market, AfterParts(ledger, followers, parts), part)
    ensures PartsDone(c, clients, followers, market, ledger, parts + [part])
    ensures AfterParts(ledger, followers, parts + [part]) == AfterPart(AfterParts(ledger, followers, parts),
                                                                       followers[|parts|], part)
    ensures AllResults(parts + [part]) == AllResults(parts) + if part.Some? then part.value.results else []
  {
    hide PartDone, AfterPart;
    var more := parts + [part];
    assert more[..|parts|] == parts;
    assert forall k :: 0 <= k < |parts| ==> more[..k] == parts[..k] && more[k] == parts[k];
  }

  // ----- Symbols a cycle stays away from -----

  /** Protected for the follower, or held by the leader while blocked or suspended. */
  function Barred(books: Ownership.Books, f: string, leader: set<string>): set<string>
    requires f in books.followers
  {
    books.followers[f].protected + (books.followers[f].suspended + books.blocked) * leader
  }

  /** No follower's barred symbols get fewer. */
  ghost predicate KeepsBarred(before: Ownership.Books, after: Ownership.Books, leader: set<string>) {
    && after.followers.Keys == before.followers.Keys
    && forall f :: f in before.followers ==> Barred(before, f, leader) <= Barred(after, f, leader)
  }

  lemma CycleKeepsBarred(books: Ownership.Books, f: string, current: set<string>, leader: set<string>,
                         claims: set<string>, held: set<string>, flat: set<string>)
    requires f in books.followers
    ensures
      var seen := Surveyed(books, f, current, leader);
      && f in seen.followers
      && KeepsBarred(books, seen, leader)
      && KeepsBarred(books, Claiming(seen, f, claims), leader)
      && KeepsBarred(books, Concluded(Claiming(seen, f, claims), f, held, flat), leader)
  {}

  lemma BeginKeepsBarred(books: Ownership.Books, leader: set<string>)
    ensures KeepsBarred(books, Ownership.Apply(books, Ownership.LeaderSeen(leader)), leader)
  {}

  /** No follower's position in a symbol that these books bar has changed. */
  ghost predicate Spared(books: Ownership.Books, leader: set<string>,
                         before: map<string, map<string, Position>>, after: map<string, map<string, Position>>)
  {
    && after.Keys == before.Keys
    && forall f, s :: f in before && f in books.followers && s in Barred(books, f, leader) ==>
          Leg(after[f], s) == Leg(before[f], s)
  }

  lemma SparedOn(books: Ownership.Books, middle: Ownership.Books, leader: set<string>,
                 before: map<string, map<string, Position>>,
                 between: map<string, map<string, Position>>, after: map<string, map<string, Position>>)
    requires KeepsBarred(books, middle, leader)
    requires Spared(books, leader, before, between) && Spared(middle, leader, between, after)
    ensures Spared(books, leader, before, after)
  {
    hide Barred, Leg;
  }

  lemma NothingChanges(books: Ownership.Books, leader: set<string>, positions: map<string, map<string, Position>>)
    ensures KeepsBarred(books, books, leader) && Spared(books, leader, positions, positions)
  {}

  lemma KeepsBarredOn(books: Ownership.Books, middle: Ownership.Books, last: Ownership.Books, leader: set<string>)
    requires KeepsBarred(books, middle, leader) && KeepsBarred(middle, last, leader)
    ensures KeepsBarred(books, last, leader)
  {
    hide Barred;
  }

  lemma CandidatesAreNotBarred(books: Ownership.Books, f: string, leader: set<string>)
    requires books.Partitioned() && f in books.followers
    ensures books.Candidates(f, leader) !! Barred(books, f, leader)
  {
    assert books.followers[f].Disjoint();
  }

  /** Every symbol that gets a target is managed by then, and flat where the leader is flat. */
  lemma TargetsAreManaged(snapshot: Snapshot, managed: set<string>, symbols: set<string>, targets: seq<Target>)
    requires Symbols(targets) == snapshot.Targeted(managed, symbols)
    requires forall t :: t in targets ==> snapshot.TargetFor(managed, t.symbol) == Some(t)
    ensures Symbols(targets) <= symbols && Symbols(targets) <= managed + snapshot.Claims(symbols)
    ensures forall t :: t in targets && t.symbol !in snapshot.leader ==> t.side == Flat
  {
    hide Calculate;
  }

  /** Changing positions in candidates only spares what is barred. */
  lemma CandidatesSpareBarred(books: Ownership.Books, seen: Ownership.Books, f: string, leader: set<string>,
                              symbols: set<string>,
                              positions: map<string, map<string, Position>>, after: map<string, Position>)
    requires seen.Partitioned() && f in books.followers && f in positions && KeepsBarred(books, seen, leader)
    requires symbols <= seen.Candidates(f, leader) && OnlyTouched(symbols, positions[f], after)
    ensures Spared(books, leader, positions, positions[f := after])
  {
    CandidatesAreNotBarred(seen, f, leader);
    hide Barred, Leg;
  }

  lemma ManagedAfterClaiming(books: Ownership.Books, f: string, claims: set<string>)
    requires f in books.followers
    ensures f in Claiming(books, f, claims).followers
    ensures Claiming(books, f, claims).followers[f].managed == books.followers[f].managed + claims
  {}
}
