/**
  Every cycle, in every schedule of its runs, is a trace of the machine of module Cycles. What that machine keeps,
  a cycle keeps.
*/
module RoundTraces {
  import opened Wrappers
  import opened Models
  import opened Exchange
  import opened Reconciler
  import opened Calculator
  import opened Gather
  import opened Rounds
  import Ownership
  import Cycles

  // ----- Steps of the machine -----

  /** A world of the machine, reached by the events so far. */
  ghost predicate Reached(id: Ownership.Identity, from: Cycles.World, events: seq<Cycles.Event>, w: Cycles.World) {
    Cycles.Sound(w) && Cycles.Reaches(id, from, events, w)
  }

  /** One cycle that nothing interrupts and nobody interferes with. */
  ghost predicate OneCycle(leader: set<string>, events: seq<Cycles.Event>) {
    && events != [] && events[0] == Cycles.Begin(leader)
    && forall k :: 0 < k < |events| ==>
          !events[k].Begin? && !events[k].Boot? && !events[k].Crash? && !events[k].Outside?
  }

  lemma Step(id: Ownership.Identity, from: Cycles.World, events: seq<Cycles.Event>, w: Cycles.World,
             event: Cycles.Event)
    requires Reached(id, from, events, w) && Cycles.Enabled(w, event)
    ensures Reached(id, from, events + [event], Cycles.Next(id, w, event))
    ensures
      forall leader :: OneCycle(leader, events) && !event.Begin? && !event.Boot? && !event.Crash? && !event.Outside? ==>
      OneCycle(leader, events + [event])
  {
    hide Cycles.Sound, Cycles.Enabled, Cycles.Next;
    Cycles.StepKeepsSound(id, w, event);
    assert (events + [event])[..|events + [event]| - 1] == events;
  }

  /** A cycle in progress: where it is, how it got there. */
  ghost predicate InStep(id: Ownership.Identity, from: Cycles.World, events: seq<Cycles.Event>,
                         books: Ownership.Books, open: map<string, set<string>>, phase: Cycles.Phase,
                         leader: set<string>)
  {
    Reached(id, from, events, Cycles.World(Some(books), open, phase)) && OneCycle(leader, events)
  }

  lemma InStepIsSound(id: Ownership.Identity, from: Cycles.World, events: seq<Cycles.Event>,
                      books: Ownership.Books, open: map<string, set<string>>, phase: Cycles.Phase, leader: set<string>)
    requires InStep(id, from, events, books, open, phase, leader)
    ensures books.Partitioned() && books.followers.Keys == open.Keys
    ensures Cycles.Sound(Cycles.World(Some(books), open, phase))
  {
    hide Cycles.Reaches, OneCycle;
  }

  lemma Begun(id: Ownership.Identity, books: Ownership.Books, open: map<string, set<string>>, leader: set<string>)
    requires Cycles.Sound(Cycles.World(Some(books), open, Cycles.Idle))
    ensures
      var from := Cycles.World(Some(books), open, Cycles.Idle);
      InStep(id, from, [Cycles.Begin(leader)], Ownership.Apply(books, Ownership.LeaderSeen(leader)), open,
             Cycles.Between(leader), leader)
  {
    var from := Cycles.World(Some(books), open, Cycles.Idle);
    Step(id, from, [], from, Cycles.Begin(leader));
    assert [] + [Cycles.Begin(leader)] == [Cycles.Begin(leader)];
    hide Cycles.Sound;
  }

  lemma Rested(id: Ownership.Identity, from: Cycles.World, events: seq<Cycles.Event>,
               books: Ownership.Books, open: map<string, set<string>>, leader: set<string>)
    requires InStep(id, from, events, books, open, Cycles.Between(leader), leader)
    ensures Reached(id, from, events + [Cycles.Rest], Cycles.World(Some(books), open, Cycles.Idle))
    ensures OneCycle(leader, events + [Cycles.Rest])
  {
    Step(id, from, events, Cycles.World(Some(books), open, Cycles.Between(leader)), Cycles.Rest);
    hide Cycles.Sound, Cycles.Reaches, OneCycle;
  }

  /** What is covered before an undisturbed cycle is covered after it. */
  lemma CycleKeepsCovered(id: Ownership.Identity, from: Cycles.World, events: seq<Cycles.Event>, to: Cycles.World,
                          leader: set<string>)
    requires Cycles.Sound(from) && from.phase.Idle? && Cycles.Covered(from)
    requires Reached(id, from, events, to) && OneCycle(leader, events)
    ensures Cycles.Covered(to)
  {
    assert Cycles.Current(from);
    assert forall event :: event in events ==> !event.Outside?;
    hide Cycles.Sound, Cycles.Covered, Cycles.Reaches;
    Cycles.FileCoversOpenSymbols(id, from, events, to);
  }

  lemma Looked(id: Ownership.Identity, from: Cycles.World, events: seq<Cycles.Event>,
               books: Ownership.Books, open: map<string, set<string>>, leader: set<string>, f: string)
    returns (more: seq<Cycles.Event>, after: Ownership.Books)
    requires InStep(id, from, events, books, open, Cycles.Between(leader), leader) && f in open
    ensures after == Surveyed(books, f, open[f], leader)
    ensures f in after.followers
    ensures InStep(id, from, more, after, open, Cycles.Planning(leader, f, after.Candidates(f, leader)), leader)
  {
    var w := Cycles.World(Some(books), open, Cycles.Between(leader));
    Step(id, from, events, w, Cycles.Look(f));
    var seen := Cycles.Next(id, w, Cycles.Look(f));
    Step(id, from, events + [Cycles.Look(f)], seen, Cycles.ProtectNew);
    more := events + [Cycles.Look(f)] + [Cycles.ProtectNew];
    after := Ownership.Apply(Ownership.Apply(books, Ownership.FollowerSeen(f, open[f], leader)),
                             Ownership.UnmanagedProtected(f, open[f]));
    hide Cycles.Sound, Cycles.Reaches, OneCycle;
  }

  lemma ClaimedOne(id: Ownership.Identity, from: Cycles.World, events: seq<Cycles.Event>,
                   books: Ownership.Books, open: map<string, set<string>>, leader: set<string>, f: string,
                   symbols: set<string>, symbol: string)
    requires InStep(id, from, events, books, open, Cycles.Planning(leader, f, symbols), leader)
    requires f in books.followers && symbol in symbols * leader && symbol !in books.followers[f].managed
    ensures Ownership.Claimable(books, f, symbol)
    ensures
      var after := Ownership.Apply(books, Ownership.Claimed(f, symbol));
      InStep(id, from, events + [Cycles.Claim(symbol)], after, open, Cycles.Planning(leader, f, symbols), leader)
  {
    var w := Cycles.World(Some(books), open, Cycles.Planning(leader, f, symbols));
    Ownership.CandidatesAreClaimable(books, f, leader, symbol);
    Step(id, from, events, w, Cycles.Claim(symbol));
    hide Cycles.Sound, Cycles.Reaches, OneCycle;
  }

  lemma Launched(id: Ownership.Identity, from: Cycles.World, events: seq<Cycles.Event>,
                 books: Ownership.Books, open: map<string, set<string>>, leader: set<string>, f: string,
                 symbols: set<string>, targets: set<string>)
    requires InStep(id, from, events, books, open, Cycles.Planning(leader, f, symbols), leader)
    requires f in books.followers && targets <= symbols && targets <= books.followers[f].managed
    ensures InStep(id, from, events + [Cycles.Launch(targets)], books, open,
                   Cycles.Trading(leader, f, targets, targets, {}), leader)
    ensures InStep(id, from, events + [Cycles.NextFollower], books, open, Cycles.Between(leader), leader)
  {
    var w := Cycles.World(Some(books), open, Cycles.Planning(leader, f, symbols));
    Step(id, from, events, w, Cycles.Launch(targets));
    Step(id, from, events, w, Cycles.NextFollower);
    hide Cycles.Sound, Cycles.Reaches, OneCycle;
  }

  /** A run leaves its symbol open or not, and returns. */
  lemma RanOne(id: Ownership.Identity, from: Cycles.World, events: seq<Cycles.Event>, books: Ownership.Books,
               open: map<string, set<string>>, leader: set<string>, f: string, targets: set<string>,
               running: set<string>, flat: set<string>,
               symbol: string, isOpen: bool, isFlat: bool)
    requires InStep(id, from, events, books, open, Cycles.Trading(leader, f, targets, running, flat), leader)
    requires f in open && symbol in running && !(isOpen && isFlat)
    ensures
      var after := open[f := if isOpen then open[f] + {symbol} else open[f] - {symbol}];
      InStep(id, from, events + [Cycles.Trade(symbol, isOpen)] + [Cycles.Report(symbol, isFlat)], books, after,
             Cycles.Trading(leader, f, targets, running - {symbol}, if isFlat then flat + {symbol} else flat), leader)
  {
    var w := Cycles.World(Some(books), open, Cycles.Trading(leader, f, targets, running, flat));
    Step(id, from, events, w, Cycles.Trade(symbol, isOpen));
    var traded := Cycles.Next(id, w, Cycles.Trade(symbol, isOpen));
    Step(id, from, events + [Cycles.Trade(symbol, isOpen)], traded, Cycles.Report(symbol, isFlat));
    hide Cycles.Sound, Cycles.Reaches, OneCycle;
  }

  lemma Landed(id: Ownership.Identity, from: Cycles.World, events: seq<Cycles.Event>, books: Ownership.Books,
               open: map<string, set<string>>, leader: set<string>, f: string, targets: set<string>, flat: set<string>)
    requires InStep(id, from, events, books, open, Cycles.Trading(leader, f, targets, {}, flat), leader)
    ensures InStep(id, from, events + [Cycles.Land], books, open, Cycles.Settling(leader, f, targets, flat), leader)
  {
    Step(id, from, events, Cycles.World(Some(books), open, Cycles.Trading(leader, f, targets, {}, flat)), Cycles.Land);
    hide Cycles.Sound, Cycles.Reaches, OneCycle;
  }

  lemma SettledOne(id: Ownership.Identity, from: Cycles.World, events: seq<Cycles.Event>, books: Ownership.Books,
                   open: map<string, set<string>>, leader: set<string>, f: string, targets: set<string>,
                   flat: set<string>, symbol: string)
    requires InStep(id, from, events, books, open, Cycles.Settling(leader, f, targets, flat), leader)
    ensures symbol in targets - flat ==>
      var after := Ownership.Apply(books, Ownership.PositionMarked(f, symbol));
      InStep(id, from, events + [Cycles.Mark(symbol)], after, open, Cycles.Settling(leader, f, targets, flat), leader)
    ensures symbol in flat && symbol !in leader ==>
      var after := Ownership.Apply(books, Ownership.Released(f, symbol));
      InStep(id, from, events + [Cycles.Release(symbol)], after, open, Cycles.Settling(leader, f, targets, flat),
             leader)
    ensures InStep(id, from, events + [Cycles.NextFollower], books, open, Cycles.Between(leader), leader)
  {
    var w := Cycles.World(Some(books), open, Cycles.Settling(leader, f, targets, flat));
    Step(id, from, events, w, Cycles.NextFollower);
    if symbol in targets - flat {
      Step(id, from, events, w, Cycles.Mark(symbol));
    } else if symbol in flat && symbol !in leader {
      Step(id, from, events, w, Cycles.Release(symbol));
    }
    hide Cycles.Sound, Cycles.Reaches, OneCycle;
  }

  // ----- A follower's part -----

  lemma ClaimingOne(books: Ownership.Books, f: string, todo: set<string>, symbol: string)
    requires f in books.followers && symbol in todo
    ensures symbol in books.followers[f].managed ==> Claiming(books, f, todo) == Claiming(books, f, todo - {symbol})
    ensures Ownership.Claimable(books, f, symbol) ==>
      var next := Ownership.Apply(books, Ownership.Claimed(f, symbol));
      f in next.followers && Claiming(books, f, todo) == Claiming(next, f, todo - {symbol})
    ensures Claiming(books, f, {}) == books
  {
    var own := books.followers[f];
    assert own.managed + {} == own.managed;
    assert books.followers[f := own] == books.followers;
    if symbol in own.managed {
      assert own.managed + todo == own.managed + (todo - {symbol});
    }
    assert own.managed + todo == own.managed + {symbol} + (todo - {symbol});
  }

  lemma {:induction false} ClaimAll(id: Ownership.Identity, from: Cycles.World, events: seq<Cycles.Event>,
                                    books: Ownership.Books,
                                    open: map<string, set<string>>, leader: set<string>, f: string,
                                    symbols: set<string>, todo: set<string>)
    returns (more: seq<Cycles.Event>)
    requires InStep(id, from, events, books, open, Cycles.Planning(leader, f, symbols), leader)
    requires f in books.followers && todo <= symbols * leader
    ensures InStep(id, from, more, Claiming(books, f, todo), open, Cycles.Planning(leader, f, symbols), leader)
    decreases todo
  {
    hide InStep, Claiming, Ownership.Apply, Ownership.Claimable;
    if todo == {} {
      NothingClaimed(books, f);
      more := events;
    } else {
      var symbol :| symbol in todo;
      ClaimingOne(books, f, todo, symbol);
      if symbol in books.followers[f].managed {
        more := ClaimAll(id, from, events, books, open, leader, f, symbols, todo - {symbol});
      } else {
        ClaimedOne(id, from, events, books, open, leader, f, symbols, symbol);
        var next := Ownership.Apply(books, Ownership.Claimed(f, symbol));
        more := ClaimAll(id, from, events + [Cycles.Claim(symbol)], next, open, leader, f, symbols, todo - {symbol});
      }
    }
  }

  lemma NothingClaimed(books: Ownership.Books, f: string)
    requires f in books.followers
    ensures Claiming(books, f, {}) == books
  {
    assert books.followers[f].managed + {} == books.followers[f].managed;
    assert books.followers[f := books.followers[f]] == books.followers;
  }

  /** The open symbols when the runs of `done` are through. */
  function Midway(before: set<string>, after: set<string>, done: set<string>): set<string> {
    (before - done) + (after * done)
  }

  lemma MidwayNext(before: set<string>, after: set<string>, done: set<string>, symbol: string)
    ensures Midway(before, after, {}) == before
    ensures
      var now := Midway(before, after, done);
      Midway(before, after, done + {symbol}) == if symbol in after then now + {symbol} else now - {symbol}
  {}

  lemma MidwayAll(targets: seq<Target>, before: map<string, Position>, after: map<string, Position>)
    requires OnlyTouched(Symbols(targets), before, after)
    ensures Midway(before.Keys, after.Keys, Symbols(targets)) == after.Keys
  {
    hide Symbols;
    forall s | s !in Symbols(targets)
      ensures s in before <==> s in after
    {
      assert Leg(after, s) == Leg(before, s);
    }
  }

  /** The runs from the k-th on. */
  lemma {:induction false} RunAll(id: Ownership.Identity, from: Cycles.World, events: seq<Cycles.Event>,
                                  books: Ownership.Books,
                                  open: map<string, set<string>>, leader: set<string>, f: string, targets: seq<Target>,
                                  results: seq<ReconcileResult>, before: set<string>, after: map<string, Position>,
                                  k: nat)
    returns (more: seq<Cycles.Event>)
    requires k <= |targets| == |results| && Distinct(targets) && Reflected(targets, results, after)
    requires forall t :: t in targets && t.symbol !in leader ==> t.side == Flat
    requires f in open && open[f] == Midway(before, after.Keys, Symbols(targets[..k]))
    requires
      var all := Symbols(targets);
      InStep(id, from, events, books, open,
             Cycles.Trading(leader, f, all, all - Symbols(targets[..k]), Flattened(leader, targets, results[..k])),
             leader)
    ensures
      var all := Symbols(targets);
      InStep(id, from, more, books, open[f := Midway(before, after.Keys, all)],
             Cycles.Trading(leader, f, all, {}, Flattened(leader, targets, results)), leader)
    decreases |targets| - k
  {
    hide InStep, Symbols, Midway, Flattened, Reflected, Distinct;
    var all, done := Symbols(targets), Symbols(targets[..k]);
    if k == |targets| {
      assert targets[..k] == targets && results[..k] == results;
      assert open[f := open[f]] == open && all - all == {};
      more := events;
    } else {
      var symbol, isFlat := targets[k].symbol, ReportsFlat(leader, targets[k], results[k]);
      SymbolIn(targets, k);
      SymbolsNext(targets, k);
      HeldOneMore(leader, targets, results, k);
      MidwayNext(before, after.Keys, done, symbol);
      FlatMeansFlat(leader, targets, results, after, k);
      var next := open[f := if symbol in after then open[f] + {symbol} else open[f] - {symbol}];
      RanOne(id, from, events, books, open, leader, f, all, all - done, Flattened(leader, targets, results[..k]),
             symbol, symbol in after, isFlat);
      assert all - done - {symbol} == all - Symbols(targets[..k + 1]);
      NoMore(Flattened(leader, targets, results[..k]));
      more := RunAll(id, from, events + [Cycles.Trade(symbol, symbol in after)] + [Cycles.Report(symbol, isFlat)],
                     books, next,
                     leader, f, targets, results, before, after, k + 1);
      assert next[f := Midway(before, after.Keys, all)] == open[f := Midway(before, after.Keys, all)];
    }
  }

  lemma NoMore(s: set<string>)
    ensures s + {} == s
  {}

  lemma FlatMeansFlat(leader: set<string>, targets: seq<Target>, results: seq<ReconcileResult>,
                      after: map<string, Position>, k: nat)
    requires k < |results| <= |targets| && Reflected(targets, results, after)
    requires forall t :: t in targets && t.symbol !in leader ==> t.side == Flat
    ensures ReportsFlat(leader, targets[k], results[k]) ==> targets[k].symbol !in after
  {}

  /** The results from the k-th on, and on to the next follower. */
  lemma {:induction false} SettleAll(id: Ownership.Identity, from: Cycles.World, events: seq<Cycles.Event>,
                                     books: Ownership.Books,
                                     open: map<string, set<string>>, leader: set<string>, f: string,
                                     targets: seq<Target>,
                                     results: seq<ReconcileResult>, k: nat)
    returns (more: seq<Cycles.Event>)
    requires f in books.followers && Symbols(targets) <= books.followers[f].managed
    requires k <= |targets| == |results| && Distinct(targets)
    requires InStep(id, from, events,
                    Concluded(books, f, Held(targets, results[..k]), Flattened(leader, targets, results[..k])), open,
                    Cycles.Settling(leader, f, Symbols(targets), Flattened(leader, targets, results)), leader)
    ensures InStep(id, from, more, Concluded(books, f, Held(targets, results), Flattened(leader, targets, results)),
                   open,
                   Cycles.Between(leader), leader)
    decreases |targets| - k
  {
    hide InStep, Symbols, Held, Flattened, Concluded, Distinct, Ownership.Apply;
    var all, flat := Symbols(targets), Flattened(leader, targets, results);
    var now := Concluded(books, f, Held(targets, results[..k]), Flattened(leader, targets, results[..k]));
    if k == |targets| {
      assert results[..k] == results;
      SettledOne(id, from, events, now, open, leader, f, all, flat, "");
      more := events + [Cycles.NextFollower];
    } else {
      var symbol := targets[k].symbol;
      SymbolIn(targets, k);
      HeldOneMore(leader, targets, results, k);
      ConcludedOneMore(books, f, leader, targets, results, k);
      BookingApplies(now, f, symbol);
      SettledOne(id, from, events, now, open, leader, f, all, flat, symbol);
      var step := if ReportsOpen(results[k]) then [Cycles.Mark(symbol)]
                  else if ReportsFlat(leader, targets[k], results[k]) then [Cycles.Release(symbol)] else [];
      assert events + [] == events;
      more := SettleAll(id, from, events + step, books, open, leader, f, targets, results, k + 1);
    }
  }

  lemma BookingApplies(books: Ownership.Books, f: string, symbol: string)
    requires f in books.followers
    ensures Ownership.Apply(books, Ownership.PositionMarked(f, symbol)) == books.With(f,
                                                                                      books.followers[f].Mark(symbol))
    ensures Ownership.Apply(books, Ownership.Released(f, symbol)) == books.With(f, books.followers[f].Release(symbol))
  {}

  /** The runs and their booking, for any outcome of the runs. */
  lemma ExecuteIsTrace(id: Ownership.Identity, from: Cycles.World, events: seq<Cycles.Event>, books: Ownership.Books,
                       open: map<string, set<string>>, leader: set<string>, f: string, symbols: set<string>,
                       targets: seq<Target>,
                       results: seq<ReconcileResult>, before: map<string, Position>, after: map<string, Position>)
    returns (more: seq<Cycles.Event>)
    requires InStep(id, from, events, books, open, Cycles.Planning(leader, f, symbols), leader)
    requires f in books.followers && f in open && open[f] == before.Keys
    requires Distinct(targets) && Symbols(targets) <= symbols && Symbols(targets) <= books.followers[f].managed
    requires forall t :: t in targets && t.symbol !in leader ==> t.side == Flat
    requires |results| == |targets| && Reflected(targets, results, after)
    requires OnlyTouched(Symbols(targets), before, after)
    ensures InStep(id, from, more, Concluded(books, f, Held(targets, results), Flattened(leader, targets, results)),
                   open[f := after.Keys], Cycles.Between(leader), leader)
  {
    hide InStep, Symbols, Held, Flattened, Concluded, Distinct, Reflected, OnlyTouched, Midway;
    var all, flat := Symbols(targets), Flattened(leader, targets, results);
    Launched(id, from, events, books, open, leader, f, symbols, all);
    NothingYet(books, f, leader, targets, results, before.Keys, after.Keys);
    MidwayAll(targets, before, after);
    if targets == [] {
      assert results == results[..0];
      assert open[f := open[f]] == open;
      more := events + [Cycles.NextFollower];
    } else {
      more := RunAll(id, from, events + [Cycles.Launch(all)], books, open, leader, f, targets, results, before.Keys,
                     after, 0);
      Landed(id, from, more, books, open[f := after.Keys], leader, f, all, flat);
      more := SettleAll(id, from, more + [Cycles.Land], books, open[f := after.Keys], leader, f, targets, results, 0);
    }
  }

  lemma NothingYet(books: Ownership.Books, f: string, leader: set<string>, targets: seq<Target>,
                   results: seq<ReconcileResult>,
                   before: set<string>, after: set<string>)
    requires f in books.followers && |results| == |targets|
    ensures Symbols(targets[..0]) == {} && Symbols(targets) - {} == Symbols(targets)
    ensures Flattened(leader, targets, results[..0]) == {}
    ensures Concluded(books, f, Held(targets, results[..0]), Flattened(leader, targets, results[..0])) == books
    ensures Midway(before, after, {}) == before
    ensures targets == [] ==> Symbols(targets) == {}
  {
    NothingConcluded(books, f, leader, targets);
    assert results[..0] == [];
  }

  /** A complete part is a trace from one follower to the next, whatever its schedule, and spares what is barred. */
  lemma PartIsTrace(id: Ownership.Identity, from: Cycles.World, events: seq<Cycles.Event>, c: Settings,
                    client: FakeExchange,
                    snapshot: Snapshot, part: Part, open: map<string, set<string>>)
    returns (more: seq<Cycles.Event>)
    requires InStep(id, from, events, part.books, open, Cycles.Between(snapshot.leader.Keys), snapshot.leader.Keys)
    requires snapshot.config.id in open && open[snapshot.config.id] == part.account.positions.Keys
    requires Complete(c, client, snapshot, part)
    requires GoodEntries(part.account.cooldowns) && (c.dryRun ==> Valued(part.account.positions))
    ensures InStep(id, from, more, part.booksAfter, open[snapshot.config.id := part.after.positions.Keys],
                   Cycles.Between(snapshot.leader.Keys), snapshot.leader.Keys)
    ensures GoodEntries(part.after.cooldowns) && (c.dryRun ==> Valued(part.after.positions))
  {
    hide InStep, Symbols, Held, Flattened, Concluded, Distinct, Reflected, OnlyTouched, Gathered, GoodEntries, Valued;
    hide Claiming, Surveyed;
    hide Snapshot.Targeted, Snapshot.TargetFor, Snapshot.Claims, Ownership.Books.Candidates;
    var f, leader := snapshot.config.id, snapshot.leader.Keys;
    var seen;
    more, seen := Looked(id, from, events, part.books, open, leader, f);
    var symbols, managed := seen.Candidates(f, leader), seen.followers[f].managed;
    AnyScheduleReflects(c, client, part.envs, part.targets, part.account, part.after, part.results);
    TargetsAreManaged(snapshot, managed, symbols, part.targets);
    assert snapshot.Claims(symbols) <= symbols * leader by {
      ClaimsAreHeld(snapshot, symbols);
    }
    more := ClaimAll(id, from, more, seen, open, leader, f, symbols, snapshot.Claims(symbols));
    ManagedAfterClaiming(seen, f, snapshot.Claims(symbols));
    GatheredMeans(c, client, part);
    more := ExecuteIsTrace(id, from, more, Claiming(seen, f, snapshot.Claims(symbols)), open, leader, f, symbols,
                           part.targets, part.results,
                           part.account.positions, part.after.positions);
  }

  lemma ClaimsAreHeld(snapshot: Snapshot, symbols: set<string>)
    ensures snapshot.Claims(symbols) <= symbols * snapshot.leader.Keys
  {}

  lemma GatheredMeans(c: Settings, client: FakeExchange, part: Part)
    requires Gathered(c, client, part.envs, part.targets, part.account, part.after, part.results)
    ensures |part.results| == |part.targets|
    ensures OnlyTouched(Symbols(part.targets), part.account.positions, part.after.positions)
  {
    hide Ran, OnlyTouched, Symbols;
  }

  /** It spares what is barred, and bars no less. */
  lemma PartSparesBarred(c: Settings, client: FakeExchange, snapshot: Snapshot, part: Part,
                         positions: map<string, map<string, Position>>)
    requires part.books.Partitioned() && snapshot.config.id in part.books.followers
    requires snapshot.config.id in positions && positions[snapshot.config.id] == part.account.positions
    requires Complete(c, client, snapshot, part)
    ensures KeepsBarred(part.books, part.booksAfter, snapshot.leader.Keys)
    ensures Spared(part.books, snapshot.leader.Keys, positions, positions[snapshot.config.id := part.after.positions])
  {
    hide Symbols, Held, Flattened, Concluded, Distinct, OnlyTouched, Gathered, Claiming, Surveyed, Barred, KeepsBarred;
    hide Spared;
    hide Snapshot.Targeted, Snapshot.TargetFor, Snapshot.Claims, Ownership.Books.Candidates;
    hide Ownership.Books.Partitioned;
    var f, leader := snapshot.config.id, snapshot.leader.Keys;
    var current := part.account.positions.Keys;
    var seen := Surveyed(part.books, f, current, leader);
    var symbols := seen.Candidates(f, leader);
    CycleKeepsBarred(part.books, f, current, leader, snapshot.Claims(symbols), Held(part.targets, part.results),
                     Flattened(leader, part.targets, part.results));
    SurveyKeepsPartition(part.books, f, current, leader);
    TargetsAreManaged(snapshot, seen.followers[f].managed, symbols, part.targets);
    GatheredMeans(c, client, part);
    CandidatesSpareBarred(part.books, seen, f, leader, Symbols(part.targets), positions, part.after.positions);
  }

  lemma SurveyKeepsPartition(books: Ownership.Books, f: string, current: set<string>, leader: set<string>)
    requires books.Partitioned()
    ensures Surveyed(books, f, current, leader).Partitioned()
    ensures Surveyed(books, f, current, leader).followers.Keys == books.followers.Keys
  {
    Ownership.OperationKeepsPartition(books, Ownership.FollowerSeen(f, current, leader));
    Ownership.OperationKeepsPartition(Ownership.Apply(books, Ownership.FollowerSeen(f, current, leader)),
                                      Ownership.UnmanagedProtected(f, current));
    hide Ownership.Apply, Ownership.Books.Partitioned;
  }

  // ----- A whole cycle -----

  function OpenSymbols(all: map<string, map<string, Position>>): map<string, set<string>> {
    map f | f in all :: all[f].Keys
  }

  lemma OpenAfter(all: map<string, map<string, Position>>, f: string, positions: map<string, Position>)
    requires f in all
    ensures f in OpenSymbols(all) && OpenSymbols(all)[f] == all[f].Keys
    ensures OpenSymbols(all[f := positions]) == OpenSymbols(all)[f := positions.Keys]
  {}

  /** Entries and positions as `RunReports` needs them. */
  ghost predicate Healthy(c: Settings, ledger: Ledger) {
    GoodEntries(ledger.cooldowns) && (c.dryRun ==> forall f :: f in ledger.positions ==> Valued(ledger.positions[f]))
  }

  /** The first parts of a cycle, from after the leader was observed. */
  lemma {:induction false} PartsAreTrace(id: Ownership.Identity, from: Cycles.World, events: seq<Cycles.Event>,
                                         c: Settings,
                                         clients: map<string, FakeExchange>, followers: seq<Follower>,
                                         market: LeaderMarket,
                                         ledger: Ledger, parts: Parts)
    returns (more: seq<Cycles.Event>)
    requires InStep(id, from, events, ledger.books, OpenSymbols(ledger.positions), Cycles.Between(market.leader.Keys),
                    market.leader.Keys)
    requires PartsDone(c, clients, followers, market, ledger, parts) && Healthy(c, ledger)
    ensures
      var after := AfterParts(ledger, followers, parts);
      && InStep(id, from, more, after.books, OpenSymbols(after.positions), Cycles.Between(market.leader.Keys),
                market.leader.Keys)
      && Healthy(c, after)
      && KeepsBarred(ledger.books, after.books, market.leader.Keys)
      && Spared(ledger.books, market.leader.Keys, ledger.positions, after.positions)
    decreases |parts|
  {
    hide InStep, OpenSymbols, Healthy, KeepsBarred, Spared;
    if parts == [] {
      NothingChanges(ledger.books, market.leader.Keys, ledger.positions);
      more := events;
    } else {
      var last := |parts| - 1;
      FewerPartsDone(c, clients, followers, market, ledger, parts);
      hide PartsDone;
      more := PartsAreTrace(id, from, events, c, clients, followers, market, ledger, parts[..last]);
      more := NextPartIsTrace(id, from, more, c, clients, followers[last], market, ledger,
                              AfterParts(ledger, followers, parts[..last]), parts[last]);
    }
  }

  lemma FewerPartsDone(c: Settings, clients: map<string, FakeExchange>, followers: seq<Follower>, market: LeaderMarket,
                       ledger: Ledger, parts: Parts)
    requires PartsDone(c, clients, followers, market, ledger, parts) && parts != []
    ensures
      var last := |parts| - 1;
      && PartsDone(c, clients, followers, market, ledger, parts[..last])
      && PartDone(c, clients, followers[last], market, AfterParts(ledger, followers, parts[..last]), parts[last])
  {
    hide PartDone, AfterParts;
    var fewer := parts[..|parts| - 1];
    assert forall k :: 0 <= k < |fewer| ==> fewer[..k] == parts[..k] && fewer[k] == parts[k];
  }

  lemma NextPartIsTrace(id: Ownership.Identity, from: Cycles.World, events: seq<Cycles.Event>, c: Settings,
                        clients: map<string, FakeExchange>,
                        config: Follower, market: LeaderMarket, first: Ledger, ledger: Ledger, part: Option<Part>)
    returns (more: seq<Cycles.Event>)
    requires InStep(id, from, events, ledger.books, OpenSymbols(ledger.positions), Cycles.Between(market.leader.Keys),
                    market.leader.Keys)
    requires PartDone(c, clients, config, market, ledger, part) && Healthy(c, ledger)
    requires KeepsBarred(first.books, ledger.books, market.leader.Keys)
    requires Spared(first.books, market.leader.Keys, first.positions, ledger.positions)
    ensures
      var after := AfterPart(ledger, config, part);
      && InStep(id, from, more, after.books, OpenSymbols(after.positions), Cycles.Between(market.leader.Keys),
                market.leader.Keys)
      && Healthy(c, after)
      && KeepsBarred(first.books, after.books, market.leader.Keys)
      && Spared(first.books, market.leader.Keys, first.positions, after.positions)
  {
    hide InStep, OpenSymbols, KeepsBarred, Spared, Complete, Healthy;
    more := events;
    if part.Some? {
      var f, leader, done, snapshot := config.id, market.leader.Keys, part.value, SnapshotOf(config, market);
      OpenAfter(ledger.positions, f, done.after.positions);
      HealthyPart(c, ledger, config, done);
      BetweenIsSound(id, from, events, ledger.books, OpenSymbols(ledger.positions), leader, f);
      more := PartIsTrace(id, from, events, c, clients[f], snapshot, done, OpenSymbols(ledger.positions));
      HealthyNext(c, ledger, config, done);
      PartSparesBarred(c, clients[f], snapshot, done, ledger.positions);
      KeepsBarredOn(first.books, ledger.books, done.booksAfter, leader);
      SparedOn(first.books, ledger.books, leader, first.positions, ledger.positions,
               ledger.positions[f := done.after.positions]);
    }
  }

  lemma BetweenIsSound(id: Ownership.Identity, from: Cycles.World, events: seq<Cycles.Event>, books: Ownership.Books,
                       open: map<string, set<string>>, leader: set<string>, f: string)
    requires InStep(id, from, events, books, open, Cycles.Between(leader), leader) && f in open
    ensures books.Partitioned() && f in books.followers
  {
    InStepIsSound(id, from, events, books, open, Cycles.Between(leader), leader);
    hide InStep, Cycles.Sound, Ownership.Books.Partitioned;
  }

  lemma HealthyPart(c: Settings, ledger: Ledger, config: Follower, part: Part)
    requires Healthy(c, ledger) && config.id in ledger.positions
    requires part.account == Account(ledger.positions[config.id], ledger.cooldowns)
    ensures GoodEntries(part.account.cooldowns) && (c.dryRun ==> Valued(part.account.positions))
  {
    hide GoodEntries, Valued;
  }

  lemma HealthyNext(c: Settings, ledger: Ledger, config: Follower, part: Part)
    requires Healthy(c, ledger) && GoodEntries(part.after.cooldowns) && (c.dryRun ==> Valued(part.after.positions))
    ensures Healthy(c, AfterPart(ledger, config, Some(part)))
  {
    hide GoodEntries, Valued;
  }

  /** The world between cycles. */
  function Resting(ledger: Ledger): Cycles.World {
    Cycles.World(Some(ledger.books), OpenSymbols(ledger.positions), Cycles.Idle)
  }

  /** The ledger once the leader has been observed. */
  function LeaderObserved(ledger: Ledger, leader: set<string>): Ledger {
    ledger.(books := Ownership.Apply(ledger.books, Ownership.LeaderSeen(leader)))
  }

  /**
    Every cycle whose parts are complete, in whatever schedule each follower's runs went, is an undisturbed trace of
    the machine. It keeps the file covering every open symbol, and no position in a barred symbol has changed.
  */
  lemma CycleIsTrace(id: Ownership.Identity, c: Settings, clients: map<string, FakeExchange>, followers: seq<Follower>,
                     market: LeaderMarket, ledger: Ledger, parts: Parts)
    returns (events: seq<Cycles.Event>)
    requires Cycles.Sound(Resting(ledger)) && Healthy(c, ledger)
    requires PartsDone(c, clients, followers, market, LeaderObserved(ledger, market.leader.Keys), parts)
    ensures
      var after := AfterParts(LeaderObserved(ledger, market.leader.Keys), followers, parts);
      && Reached(id, Resting(ledger), events, Resting(after)) && OneCycle(market.leader.Keys, events)
      && Healthy(c, after)
      && (Cycles.Covered(Resting(ledger)) ==> Cycles.Covered(Resting(after)))
      && KeepsBarred(ledger.books, after.books, market.leader.Keys)
      && Spared(ledger.books, market.leader.Keys, ledger.positions, after.positions)
  {
    assert |parts| <= |followers|;
    hide OpenSymbols, InStep, KeepsBarred, Spared, Cycles.Sound, Cycles.Covered, PartsDone, AfterParts, Ownership.Apply;
    var leader, observed := market.leader.Keys, LeaderObserved(ledger, market.leader.Keys);
    assert Healthy(c, observed);
    hide Healthy;
    Begun(id, ledger.books, OpenSymbols(ledger.positions), leader);
    BeginKeepsBarred(ledger.books, leader);
    events := PartsAreTrace(id, Resting(ledger), [Cycles.Begin(leader)], c, clients, followers, market, observed,
                            parts);
    var after := AfterParts(observed, followers, parts);
    Rested(id, Resting(ledger), events, after.books, OpenSymbols(after.positions), leader);
    events := events + [Cycles.Rest];
    KeepsBarredOn(ledger.books, observed.books, after.books, leader);
    NothingChanges(ledger.books, leader, ledger.positions);
    SparedOn(ledger.books, observed.books, leader, ledger.positions, ledger.positions, after.positions);
    if Cycles.Covered(Resting(ledger)) {
      CycleKeepsCovered(id, Resting(ledger), events, Resting(after), leader);
    }
  }
}
