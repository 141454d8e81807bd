/**
  One reconcile cycle of the program (perpmirror/app.py: full_reconcile), with ownership of positions.

  The runs of a follower go one after the other here, in the order `gather` is given them. That is one schedule;
  what the cycle promises (`Complete`, and by module RoundTraces everything the machine keeps) holds for all.
*/
module App {
  import opened Wrappers
  import opened Models
  import opened Exchange
  import opened Executor
  import opened Reconciler
  import opened Calculator
  import opened Gather
  import opened Rounds
  import opened RoundTraces
  import Ownership
  import Cycles

  class PerpMirrorApp {
    const followers: seq<Follower>
    const clients: map<string, FakeExchange>
    const reconciler: Reconciler
    const ownership: Ownership.PositionOwnership

    constructor (followers: seq<Follower>, clients: map<string, FakeExchange>, settings: Settings,
                 file: Ownership.StateFile, identity: Ownership.Identity)
      requires forall k :: 0 <= k < |followers| ==> followers[k].id in clients
      requires forall f, g :: f in clients && g in clients && f != g ==> clients[f] != clients[g]
      requires forall f :: f in clients ==> clients[f].Valid()
      ensures Valid() && !ownership.initialized && reconciler.failureCooldowns == map[]
      ensures this.followers == followers && this.clients == clients && reconciler.settings == settings
      ensures ownership.file == file && ownership.identity == identity && ownership.persistChanges == !settings.dryRun
    {
      this.followers, this.clients := followers, clients;
      this.reconciler := new Reconciler(settings);
      this.ownership := new Ownership.PositionOwnership(file, identity, !settings.dryRun);
    }

    ghost predicate Valid()
      reads ownership, ownership.file, reconciler, clients.Values
    {
      && reconciler.Valid()
      && (forall k :: 0 <= k < |followers| ==> followers[k].id in clients)
      && (forall f, g :: f in clients && g in clients && f != g ==> clients[f] != clients[g])
      && (forall f :: f in clients ==> clients[f].Valid())
      && ownership.Durable()
    }

    /** In a dry run the file stays as it is. */
    twostate predicate FileKept()
      reads ownership, ownership.file
    {
      !ownership.persistChanges ==> ownership.file.content == old(ownership.file.content)
    }

    ghost function Positions(): map<string, map<string, Position>>
      reads clients.Values
    {
      map f | f in clients :: clients[f].positions
    }

    ghost function LedgerNow(): Ledger
      reads ownership, reconciler, clients.Values
    {
      Ledger(ownership.Memory(), reconciler.failureCooldowns, Positions())
    }

    ghost function TurnOf(f: string): Turn
      requires f in clients
      reads clients[f], reconciler
    {
      Turn(Account(clients[f].positions, reconciler.failureCooldowns), |clients[f].orders|)
    }

    /** `initialize_position_ownership`: a start-up of the machine, from no file or from a file of either version. */
    method InitializePositionOwnership(leader: set<string>) returns (r: Result<(), Ownership.Error>)
      requires Valid()
      modifies ownership, ownership.file
      ensures Valid() && FileKept()
      ensures r.Ok? <==> ownership.initialized
      ensures old(ownership.initialized) ==> LedgerNow() == old(LedgerNow())
      ensures !old(ownership.initialized) ==>
        Cycles.StartsUp(ownership.identity, old(ownership.file.content), OpenSymbols(Positions()),
                        match r case Ok(_) => Ok(ownership.Memory()) case Err(error) => Err(error))
    {
      hide Ownership.Initialize, Ownership.Save, Cycles.StartsUp, OpenSymbols;
      var current := map f | f in clients :: clients[f].positions.Keys;
      OpenIsKeys(Positions(), current);
      Cycles.EveryStartUp(ownership.identity, ownership.file.content, current, leader);
      r := ownership.Start(leader, current);
    }

    /** Registers what the follower holds; what is left are the candidates. */
    method Survey(f: string, leader: set<string>) returns (symbols: set<string>)
      requires Valid() && ownership.initialized && f in clients && f in ownership.followers
      modifies ownership`followers, ownership.file
      ensures Valid() && FileKept()
      ensures f in ownership.followers
      ensures ownership.Memory() == Surveyed(old(ownership.Memory()), f, clients[f].positions.Keys, leader)
      ensures symbols == ownership.Memory().Candidates(f, leader)
    {
      hide Ownership.Save;
      var current := clients[f].positions.Keys;
      var suspended := ownership.ObserveFollowerPositions(f, current, leader);
      var discovered := ownership.ProtectUnmanaged(f, current);
      symbols := ownership.Memory().Candidates(f, leader);
    }

    /** Claims a candidate if it is new, and works out its target. The claim cannot be refused. */
    method PlanSymbol(snapshot: Snapshot, symbol: string) returns (planned: Option<Target>)
      requires Valid() && ownership.initialized && snapshot.config.id in ownership.followers
      requires ownership.Memory().Partitioned()
      requires symbol in ownership.Memory().Candidates(snapshot.config.id, snapshot.leader.Keys)
      modifies ownership`followers, ownership.file
      ensures Valid() && FileKept()
      ensures
        var books, f := old(ownership.Memory()), snapshot.config.id;
        && planned == snapshot.TargetFor(books.followers[f].managed, symbol)
        && ownership.Memory() ==
             if symbol in snapshot.Claims({symbol}) then books.With(f, books.followers[f].Claim(symbol)) else books
    {
      hide Ownership.Save, Calculate, Ownership.Books.Partitioned;
      var f := snapshot.config.id;
      if symbol in snapshot.leader && symbol !in snapshot.supported {
        return None;
      }
      if symbol in ownership.followers[f].managed {
        ClaimTwice(ownership.Memory(), f, symbol);
      } else {
        if symbol !in snapshot.leader {
          return None;
        }
        Ownership.CandidatesAreClaimable(ownership.Memory(), f, snapshot.leader.Keys, symbol);
        var claimed := ownership.ClaimSymbol(f, symbol);
        assert claimed.Ok?;
      }
      var target := Calculate(snapshot.config, LeaderAt(snapshot.leader, symbol), snapshot.leaderEquity,
                              snapshot.followerEquity, symbol);
      return if target.Ok? then Some(target.value) else None;
    }

    /** Claims what is new among the candidates and works out the targets. */
    method Plan(snapshot: Snapshot, symbols: set<string>) returns (targets: seq<Target>)
      requires Valid() && ownership.initialized && snapshot.config.id in ownership.followers
      requires ownership.Memory().Partitioned()
      requires symbols == ownership.Memory().Candidates(snapshot.config.id, snapshot.leader.Keys)
      modifies ownership`followers, ownership.file
      ensures Valid() && FileKept()
      ensures Planned(snapshot, old(ownership.Memory()), targets)
      ensures ownership.Memory() == Claiming(old(ownership.Memory()), snapshot.config.id, snapshot.Claims(symbols))
    {
      hide Ownership.Save, Snapshot.Targeted, Snapshot.TargetFor, Snapshot.Claims, Symbols, Distinct, Claiming;
      hide Ownership.Books.Candidates;
      hide Ownership.Books.Partitioned;
      var f := snapshot.config.id;
      targets := [];
      var rest := symbols;
      ghost var done, books := {}, ownership.Memory();
      ghost var managed := books.followers[f].managed;
      ClaimingOneMore(books, snapshot, {}, "");
      NoTargets(snapshot, managed);
      while rest != {}
        invariant done !! rest && done + rest == symbols
        invariant Valid() && ownership.initialized && FileKept()
        invariant f in ownership.followers && ownership.Memory() == Claiming(books, f, snapshot.Claims(done))
        invariant Distinct(targets) && Symbols(targets) == snapshot.Targeted(managed, done)
        invariant forall t :: t in targets ==> snapshot.TargetFor(managed, t.symbol) == Some(t)
        decreases |rest|
      {
        var symbol :| symbol in rest;
        rest := rest - {symbol};
        TargetedOneMore(snapshot, managed, done, symbol, targets);
        ClaimingOneMore(books, snapshot, done, symbol);
        TargetDepends(snapshot, managed, ownership.followers[f].managed, symbol);
        StillCandidate(snapshot, books, symbols, done, symbol);
        done := done + {symbol};
        var planned := PlanSymbol(snapshot, symbol);
        if planned.Some? {
          targets := targets + [planned.value];
        }
      }
      assert done == symbols;
    }

    /** `_safe_reconcile` on one target. */
    method RunTarget(f: string, t: Target, clock: Clock) returns (result: ReconcileResult)
      requires Valid() && f in clients
      modifies clients[f], reconciler`failureCooldowns
      ensures Valid()
      ensures
        var run := RunOf(reconciler.settings, clients[f], clock, old(TurnOf(f)), t);
        TurnOf(f) == AfterRun(old(TurnOf(f)), t, run) && result == Confirmed(t, run.returned)
    {
      hide Reconcile, WithEntry, WithLeg, Confirmed;
      var returned := reconciler.ReconcileTarget(clients[f], t, clock(KeyOf(t)));
      result := Confirmed(t, returned);
    }

    /** `gather` on the runs of a follower, one after the other. */
    method RunTargets(f: string, targets: seq<Target>, clock: Clock) returns (results: seq<ReconcileResult>)
      requires Valid() && f in clients
      modifies clients[f], reconciler`failureCooldowns
      ensures Valid()
      ensures TurnOf(f) == AfterRuns(reconciler.settings, clients[f], clock, old(TurnOf(f)), targets)
      ensures |results| == |targets|
      ensures Replayed(reconciler.settings, clients[f], clock, old(TurnOf(f)), targets, results)
    {
      hide RunOf, AfterRun, AfterRuns, Replayed, Confirmed;
      results := [];
      ghost var start, c := TurnOf(f), reconciler.settings;
      NoneReplayed(c, clients[f], clock, start, targets);
      while |results| < |targets|
        invariant |results| <= |targets| && Valid()
        invariant TurnOf(f) == AfterRuns(c, clients[f], clock, start, targets[..|results|])
        invariant Replayed(c, clients[f], clock, start, targets, results)
      {
        AfterRunsNext(c, clients[f], clock, start, targets, |results|);
        ReplayedNext(c, clients[f], clock, start, targets, results);
        var result := RunTarget(f, targets[|results|], clock);
        results := results + [result];
      }
      assert targets[..|targets|] == targets;
    }

    method SettleOne(f: string, leader: set<string>, target: Target, result: ReconcileResult)
      requires Valid() && ownership.initialized && f in ownership.followers
      modifies ownership`followers, ownership.file
      ensures Valid() && FileKept()
      ensures
        var books := old(ownership.Memory());
        ownership.Memory() ==
          if ReportsOpen(result) then books.With(f, books.followers[f].Mark(target.symbol))
          else if ReportsFlat(leader, target, result) then books.With(f, books.followers[f].Release(target.symbol))
          else books
    {
      hide Ownership.Save;
      if result.finalNotional.Some? && result.finalNotional.value > 0.0 {
        var marked := ownership.MarkPositionObserved(f, target.symbol);
      }
      if target.symbol !in leader && result.success && result.finalNotional == Some(0.0) {
        var released := ownership.ReleaseSymbol(f, target.symbol);
      }
    }

    /** Marks the positions that are open and releases the symbols that are done. */
    method Settle(f: string, leader: set<string>, targets: seq<Target>, results: seq<ReconcileResult>)
      requires Valid() && ownership.initialized && f in ownership.followers
      requires |results| == |targets| && Distinct(targets) && Symbols(targets) <= ownership.followers[f].managed
      modifies ownership`followers, ownership.file
      ensures Valid() && FileKept()
      ensures ownership.Memory() == Concluded(old(ownership.Memory()), f, Held(targets, results),
                                              Flattened(leader, targets, results))
    {
      hide Ownership.Save, Held, Flattened, Concluded, Distinct, Symbols;
      var k := 0;
      ghost var books := ownership.Memory();
      assert results[..0] == [];
      NothingConcluded(books, f, leader, targets);
      while k < |targets|
        invariant 0 <= k <= |targets|
        invariant Valid() && ownership.initialized && FileKept()
        invariant f in ownership.followers
        invariant ownership.Memory() == Concluded(books, f, Held(targets, results[..k]),
                                                  Flattened(leader, targets, results[..k]))
      {
        ConcludedOneMore(books, f, leader, targets, results, k);
        SettleOne(f, leader, targets[k], results[k]);
        k := k + 1;
      }
      assert results[..|targets|] == results;
    }

    /** A follower's part of a cycle, from its snapshot on. */
    method ReconcileFollower(snapshot: Snapshot, clock: Clock) returns (results: seq<ReconcileResult>, ghost part: Part)
      requires Valid() && ownership.initialized && ownership.Memory().Partitioned()
      requires snapshot.config.id in clients && snapshot.config.id in ownership.followers
      modifies ownership`followers, ownership.file, clients[snapshot.config.id], reconciler`failureCooldowns
      ensures Valid() && FileKept()
      ensures ownership.Memory().Partitioned() && ownership.followers.Keys == old(ownership.followers.Keys)
      ensures Complete(reconciler.settings, clients[snapshot.config.id], snapshot, part)
      ensures part.envs == EnvsInTurn(reconciler.settings, clients[snapshot.config.id], clock,
                                      old(TurnOf(snapshot.config.id)), part.targets)
      ensures part.books == old(ownership.Memory()) && part.account == old(TurnOf(snapshot.config.id)).account
      ensures part.booksAfter == ownership.Memory() && part.after == TurnOf(snapshot.config.id).account
      ensures part.results == results
    {
      hide Ownership.Save, Snapshot.Targeted, Snapshot.TargetFor, Snapshot.Claims, Claiming, Concluded, Distinct;
      hide Symbols, Surveyed;
      hide Ownership.Books.Candidates, Ownership.Books.Partitioned, Flattened, Held, Replayed, AfterRuns, EnvsInTurn;
      hide Gathered;
      var f, leader := snapshot.config.id, snapshot.leader.Keys;
      ghost var books, turn, c := ownership.Memory(), TurnOf(f), reconciler.settings;
      SurveyKeepsPartition(books, f, clients[f].positions.Keys, leader);
      var symbols := Survey(f, leader);
      ghost var seen := ownership.Memory();
      var targets := Plan(snapshot, symbols);
      ghost var managed := seen.followers[f].managed;
      TargetsAreManaged(snapshot, managed, symbols, targets);
      ManagedAfterClaiming(seen, f, snapshot.Claims(symbols));
      ClaimsAreCandidates(snapshot, symbols);
      ClaimingKeepsPartition(seen, f, leader, snapshot.Claims(symbols));
      ghost var claimed := ownership.Memory();
      results := RunTargets(f, targets, clock);
      InTurnIsGathered(c, clients[f], clock, turn, targets, results);
      HeldAreTargets(targets, results);
      ConcludedKeepsPartition(claimed, f, Held(targets, results), Flattened(leader, targets, results));
      if targets != [] {
        Settle(f, leader, targets, results);
      } else {
        NothingConcluded(claimed, f, leader, targets);
      }
      part := Part(books, turn.account, targets, EnvsInTurn(c, clients[f], clock, turn, targets), results,
                   ownership.Memory(), TurnOf(f).account);
    }

    /** The next follower's part, unless its snapshot failed. */
    method ReconcileNext(k: nat, market: LeaderMarket,
                         clock: Clock) returns (results: seq<ReconcileResult>, ghost part: Option<Part>)
      requires Valid() && ownership.initialized && k < |followers|
      requires ownership.Memory().Partitioned() && ownership.followers.Keys == clients.Keys
      modifies ownership`followers, ownership.file, clients.Values, reconciler`failureCooldowns
      ensures Valid() && FileKept()
      ensures ownership.Memory().Partitioned() && ownership.followers.Keys == clients.Keys
      ensures PartDone(reconciler.settings, clients, followers[k], market, old(LedgerNow()), part)
      ensures LedgerNow() == AfterPart(old(LedgerNow()), followers[k], part)
      ensures results == if part.Some? then part.value.results else []
    {
      hide Ownership.Save, Complete, Ownership.Books.Partitioned, EnvsInTurn;
      var config := followers[k];
      if config.id !in market.equities {
        return [], None;
      }
      ghost var before := Positions();
      ghost var done;
      results, done := ReconcileFollower(SnapshotOf(config, market), clock);
      part := Some(done);
      assert Positions() == before[config.id := clients[config.id].positions];
    }

    /** Every follower in turn. */
    method ReconcileAll(market: LeaderMarket, clock: Clock) returns (results: seq<ReconcileResult>, ghost parts: Parts)
      requires Valid() && ownership.initialized
      requires ownership.Memory().Partitioned() && ownership.followers.Keys == clients.Keys
      modifies ownership`followers, ownership.file, clients.Values, reconciler`failureCooldowns
      ensures Valid() && FileKept()
      ensures |parts| == |followers|
      ensures PartsDone(reconciler.settings, clients, followers, market, old(LedgerNow()), parts)
      ensures LedgerNow() == AfterParts(old(LedgerNow()), followers, parts)
      ensures results == AllResults(parts)
    {
      hide Ownership.Save, Ownership.Books.Partitioned, PartDone, AfterPart, PerpMirrorApp.Valid;
      parts, results := [], [];
      ghost var c, ledger := reconciler.settings, LedgerNow();
      for k := 0 to |followers|
        invariant Valid() && ownership.initialized && FileKept()
        invariant ownership.Memory().Partitioned() && ownership.followers.Keys == clients.Keys
        invariant |parts| == k && PartsDone(c, clients, followers, market, ledger, parts)
        invariant LedgerNow() == AfterParts(ledger, followers, parts)
        invariant results == AllResults(parts)
      {
        hide PartsDone, AfterParts, AllResults;
        var more;
        ghost var next;
        more, next := ReconcileNext(k, market, clock);
        NextPartDone(c, clients, followers, market, ledger, parts, next);
        results := results + more;
        parts := parts + [next];
      }
    }

    /**
      `full_reconcile`. Every follower's part is complete, one after the other; the cycle is a trace of the machine,
      and barred symbols keep their positions.
    */
    method FullReconcile(market: LeaderMarket, clock: Clock)
      returns (r: Result<seq<ReconcileResult>, Ownership.Error>, ghost parts: Parts, ghost events: seq<Cycles.Event>)
      requires Valid() && Healthy(reconciler.settings, LedgerNow())
      requires ownership.initialized ==> Cycles.Sound(Resting(LedgerNow()))
      modifies ownership`blockedLeaderSymbols, ownership`followers, ownership.file
      modifies clients.Values, reconciler`failureCooldowns
      ensures Valid() && Healthy(reconciler.settings, LedgerNow()) && FileKept()
      ensures !ownership.initialized ==> r == Err(Ownership.NotInitialized) && LedgerNow() == old(LedgerNow())
      ensures ownership.initialized ==>
        var observed := LeaderObserved(old(LedgerNow()), market.leader.Keys);
        && |parts| == |followers| && PartsDone(reconciler.settings, clients, followers, market, observed, parts)
        && LedgerNow() == AfterParts(observed, followers, parts)
        && r == Ok(AllResults(parts))
      ensures ownership.initialized ==>
        && Reached(ownership.identity, old(Resting(LedgerNow())), events, Resting(LedgerNow()))
        && OneCycle(market.leader.Keys, events)
        && (old(Cycles.Covered(Resting(LedgerNow()))) ==> Cycles.Covered(Resting(LedgerNow())))
        && KeepsBarred(old(ownership.Memory()), ownership.Memory(), market.leader.Keys)
        && Spared(old(ownership.Memory()), market.leader.Keys, old(Positions()), Positions())
    {
      hide Ownership.Save, Cycles.Sound, Cycles.Covered, Ownership.Apply, KeepsBarred, Spared, PartsDone, AfterParts;
      hide AllResults, OneCycle;
      hide Healthy, Reached, OpenSymbols, Ownership.Books.Partitioned;
      ghost var ledger, leader := LedgerNow(), market.leader.Keys;
      var observed := ownership.ObserveLeader(market.leader.Keys);
      if observed.Err? {
        return Err(observed.error), [], [];
      }
      assert LedgerNow() == LeaderObserved(ledger, leader);
      SoundMeans(ledger, leader);
      var results;
      results, parts := ReconcileAll(market, clock);
      events := CycleIsTrace(ownership.identity, reconciler.settings, clients, followers, market, ledger, parts);
      return Ok(results), parts, events;
    }
  }

  lemma OpenIsKeys(all: map<string, map<string, Position>>, current: map<string, set<string>>)
    requires current == map f | f in all :: all[f].Keys
    ensures current == OpenSymbols(all)
  {}

  lemma StillCandidate(snapshot: Snapshot, books: Ownership.Books, symbols: set<string>, done: set<string>,
                       symbol: string)
    requires books.Partitioned() && snapshot.config.id in books.followers
    requires symbols == books.Candidates(snapshot.config.id, snapshot.leader.Keys) && done <= symbols
    requires symbol in symbols
    ensures
      var now := Claiming(books, snapshot.config.id, snapshot.Claims(done));
      now.Partitioned() && symbol in now.Candidates(snapshot.config.id, snapshot.leader.Keys)
  {
    ClaimingKeepsPartition(books, snapshot.config.id, snapshot.leader.Keys, snapshot.Claims(done));
    hide Claiming, Ownership.Books.Candidates, Ownership.Books.Partitioned;
  }

  lemma NoneReplayed(c: Settings, client: FakeExchange, clock: Clock, turn: Turn, targets: seq<Target>)
    ensures AfterRuns(c, client, clock, turn, targets[..0]) == turn && Replayed(c, client, clock, turn, targets, [])
  {}

  lemma ClaimsAreCandidates(snapshot: Snapshot, symbols: set<string>)
    ensures snapshot.Claims(symbols) <= symbols
  {}

  lemma HeldAreTargets(targets: seq<Target>, results: seq<ReconcileResult>)
    ensures Held(targets, results) <= Symbols(targets)
  {}

  /** A sound ledger is partitioned, and stays so when the leader is observed. */
  lemma SoundMeans(ledger: Ledger, leader: set<string>)
    requires Cycles.Sound(Resting(ledger))
    ensures
      var books := LeaderObserved(ledger, leader).books;
      books.Partitioned() && books.followers.Keys == ledger.positions.Keys
  {
    Ownership.OperationKeepsPartition(ledger.books, Ownership.LeaderSeen(leader));
    hide Ownership.Books.Partitioned;
  }
}
