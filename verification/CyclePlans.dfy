/**
  What a whole cycle plans and writes down, from the ledger it begins with, and what that means over several cycles
  (perpmirror/app.py: full_reconcile). Between two cycles others may trade.
*/
module CyclePlans {
  import opened Wrappers
  import opened Models
  import opened Exchange
  import opened Executor
  import opened Reconciler
  import opened Calculator
  import opened Gather
  import opened Rounds
  import opened RoundTraces
  import opened Plans
  import Ownership

  ghost predicate DistinctFollowers(followers: seq<Follower>) {
    forall j, k :: 0 <= j < k < |followers| ==> followers[j].id != followers[k].id
  }

  // ----- The ledger in the course of a cycle -----

  /** A follower's books and positions are the same in both ledgers, and so are the blocked symbols. */
  ghost predicate SameFor(f: string, one: Ledger, other: Ledger) {
    && one.books.blocked == other.books.blocked
    && (f in one.books.followers <==> f in other.books.followers)
    && (f in one.books.followers ==> one.books.followers[f] == other.books.followers[f])
    && (f in one.positions <==> f in other.positions)
    && (f in one.positions ==> one.positions[f] == other.positions[f])
  }

  lemma OthersPart(c: Settings, clients: map<string, FakeExchange>, config: Follower, market: LeaderMarket,
                   ledger: Ledger, part: Option<Part>, f: string)
    requires PartDone(c, clients, config, market, ledger, part) && config.id != f
    ensures SameFor(f, ledger, AfterPart(ledger, config, part))
  {
    if part.Some? {
      PartBooksExactly(c, clients[config.id], SnapshotOf(config, market), part.value, "");
    }
    hide Complete, Due, Gone;
  }

  /** A follower is left alone while it is the others' turn. */
  lemma {:induction false} OthersParts(c: Settings, clients: map<string, FakeExchange>, followers: seq<Follower>,
                                       market: LeaderMarket, ledger: Ledger, parts: Parts, f: string, i: nat, n: nat)
    requires PartsDone(c, clients, followers, market, ledger, parts) && i <= n <= |parts|
    requires forall j :: i <= j < n ==> followers[j].id != f
    ensures SameFor(f, AfterParts(ledger, followers, parts[..i]), AfterParts(ledger, followers, parts[..n]))
    decreases n
  {
    hide PartDone, AfterPart, AfterParts;
    if i < n {
      OthersParts(c, clients, followers, market, ledger, parts, f, i, n - 1);
      OthersPart(c, clients, followers[n - 1], market, AfterParts(ledger, followers, parts[..n - 1]), parts[n - 1], f);
      AfterOneMore(ledger, followers, parts, n - 1);
    }
  }

  lemma AfterOneMore(ledger: Ledger, followers: seq<Follower>, parts: Parts, k: nat)
    requires k < |parts| <= |followers|
    ensures AfterParts(ledger, followers, parts[..k + 1])
         == AfterPart(AfterParts(ledger, followers, parts[..k]), followers[k], parts[k])
    ensures AfterParts(ledger, followers, parts[..0]) == ledger
  {
    assert parts[..k + 1][..k] == parts[..k];
    hide AfterPart;
  }

  /** The k-th follower's part begins with its books and positions as the cycle found them. */
  lemma BeginsAsFound(c: Settings, clients: map<string, FakeExchange>, followers: seq<Follower>, market: LeaderMarket,
                      ledger: Ledger, parts: Parts, k: nat)
    requires PartsDone(c, clients, followers, market, ledger, parts) && DistinctFollowers(followers) && k < |parts|
    ensures SameFor(followers[k].id, ledger, AfterParts(ledger, followers, parts[..k]))
    ensures SameFor(followers[k].id, AfterParts(ledger, followers, parts[..k + 1]),
                    AfterParts(ledger, followers, parts))
  {
    hide PartDone, SameFor;
    AfterOneMore(ledger, followers, parts, k);
    OthersParts(c, clients, followers, market, ledger, parts, followers[k].id, 0, k);
    OthersParts(c, clients, followers, market, ledger, parts, followers[k].id, k + 1, |parts|);
    assert parts[..|parts|] == parts;
  }

  // ----- Plans -----

  /** What the calculator makes of the leader's position for a follower. */
  function TargetIn(market: LeaderMarket, config: Follower, s: string): Result<Target, Error>
    requires config.id in market.equities
  {
    Calculate(config, if s in market.leader then Some(market.leader[s]) else None, market.equity,
              market.equities[config.id], s)
  }

  function SupportedBy(market: LeaderMarket, f: string): set<string> {
    if f in market.supported then market.supported[f] else {}
  }

  /** Observing the leader changes nothing about what is due, or gone. */
  lemma ObservedIsDue(ledger: Ledger, f: string, current: set<string>, leader: set<string>, supported: set<string>,
                      s: string)
    requires f in ledger.books.followers
    ensures
      var observed := LeaderObserved(ledger, leader);
      && f in observed.books.followers && observed.positions == ledger.positions
      && var own, seen := ledger.books.followers[f], observed.books.followers[f];
      && Due(seen, observed.books.blocked, current, leader, supported, s)
           == Due(own, ledger.books.blocked, current, leader, supported, s)
      && Gone(seen, current, leader, s) == Gone(own, current, leader, s)
      && seen.managed == own.managed && seen.observed == own.observed && seen.protected == own.protected
      && (s in seen.suspended <==> s in own.suspended && s in leader)
      && (s in observed.books.blocked <==> s in ledger.books.blocked && s in leader)
  {
    Ownership.MembershipExactly(ledger.books, Ownership.LeaderSeen(leader), f, s);
  }

  lemma ObservedFollowers(ledger: Ledger, leader: set<string>)
    ensures LeaderObserved(ledger, leader).books.followers.Keys == ledger.books.followers.Keys
    ensures LeaderObserved(ledger, leader).positions == ledger.positions
  {}

  /** The k-th follower's part, seen from the ledger as the cycle found it. */
  lemma PartOfCycle(c: Settings, clients: map<string, FakeExchange>, followers: seq<Follower>, market: LeaderMarket,
                    ledger: Ledger, parts: Parts, k: nat)
    requires PartsDone(c, clients, followers, market, LeaderObserved(ledger, market.leader.Keys), parts)
    requires DistinctFollowers(followers) && k < |parts| && parts[k].Some?
    ensures
      var f, part, observed := followers[k].id, parts[k].value, LeaderObserved(ledger, market.leader.Keys);
      && f in clients && f in market.equities && f in ledger.positions && f in ledger.books.followers
      && Complete(c, clients[f], SnapshotOf(followers[k], market), part)
      && part.books.blocked == observed.books.blocked
      && f in part.books.followers && f in observed.books.followers
      && part.books.followers[f] == observed.books.followers[f]
      && part.account.positions == ledger.positions[f]
      && var after := AfterParts(observed, followers, parts);
      && after.books.blocked == part.booksAfter.blocked
      && f in after.books.followers && f in part.booksAfter.followers
      && after.books.followers[f] == part.booksAfter.followers[f]
      && f in after.positions && after.positions[f] == part.after.positions
  {
    var f, part, observed := followers[k].id, parts[k].value, LeaderObserved(ledger, market.leader.Keys);
    ObservedFollowers(ledger, market.leader.Keys);
    hide LeaderObserved, AfterParts, Complete, DistinctFollowers;
    BeginsAsFound(c, clients, followers, market, observed, parts, k);
    AfterOneMore(observed, followers, parts, k);
    PartBooksExactly(c, clients[f], SnapshotOf(followers[k], market), part, "");
    hide Due, Gone, Finished;
  }

  /**
    Which runs a cycle has, for each follower whose snapshot was read: exactly one for each symbol that is due by the
    books and positions the cycle began with and whose target can be worked out, and with that target.
  */
  lemma CycleTargetsExactly(c: Settings, clients: map<string, FakeExchange>, followers: seq<Follower>,
                            market: LeaderMarket, ledger: Ledger, parts: Parts, k: nat, s: string)
    requires PartsDone(c, clients, followers, market, LeaderObserved(ledger, market.leader.Keys), parts)
    requires DistinctFollowers(followers) && k < |parts| && parts[k].Some?
    ensures
      var f, targets := followers[k].id, parts[k].value.targets;
      && f in market.equities && f in ledger.positions && f in ledger.books.followers
      && var due := Due(ledger.books.followers[f], ledger.books.blocked, ledger.positions[f].Keys,
                        market.leader.Keys, SupportedBy(market, f), s);
      && Distinct(targets)
      && (HasTarget(targets, s) <==> due && TargetIn(market, followers[k], s).Ok?)
      && forall t :: t in targets && t.symbol == s ==> TargetIn(market, followers[k], s) == Ok(t)
  {
    var f, part := followers[k].id, parts[k].value;
    PartOfCycle(c, clients, followers, market, ledger, parts, k);
    TargetsExactly(c, clients[f], SnapshotOf(followers[k], market), part, s);
    ObservedIsDue(ledger, f, ledger.positions[f].Keys, market.leader.Keys, SupportedBy(market, f), s);
    hide PartsDone, Complete, LeaderObserved, Due, HasTarget, Distinct, Calculate, Gone;
  }

  // ----- Books -----

  /** The ledger after a cycle. */
  function AfterCycle(followers: seq<Follower>, market: LeaderMarket, ledger: Ledger, parts: Parts): Ledger
    requires |parts| <= |followers|
  {
    AfterParts(LeaderObserved(ledger, market.leader.Keys), followers, parts)
  }

  /**
    The books a cycle leaves for a follower whose snapshot was read: bars are lifted where the leader is flat, what
    others opened is protected, what vanished is suspended, what is due is managed until it is finished.
  */
  lemma CycleBooksExactly(c: Settings, clients: map<string, FakeExchange>, followers: seq<Follower>,
                          market: LeaderMarket, ledger: Ledger, parts: Parts, k: nat, s: string)
    requires PartsDone(c, clients, followers, market, LeaderObserved(ledger, market.leader.Keys), parts)
    requires DistinctFollowers(followers) && k < |parts| && parts[k].Some?
    ensures
      var f, after := followers[k].id, AfterCycle(followers, market, ledger, parts);
      && f in ledger.positions && f in ledger.books.followers && f in after.books.followers
      && var own, next := ledger.books.followers[f], after.books.followers[f];
      var current, leader := ledger.positions[f].Keys, market.leader.Keys;
      && (s in after.books.blocked <==> s in ledger.books.blocked && s in leader)
      && (s in next.protected <==>
            s in own.protected || (s in current && s !in own.managed && !(s in own.suspended && s in leader)))
      && (s in next.suspended <==> (s in own.suspended && s in leader) || Gone(own, current, leader, s))
      && (s in next.managed <==>
            && !Finished(parts[k].value, leader, s)
            && ((s in own.managed && !Gone(own, current, leader, s))
                || Due(own, ledger.books.blocked, current, leader, SupportedBy(market, f), s)))
      && (s in next.observed <==>
            && !Finished(parts[k].value, leader, s)
            && (|| (s in own.observed && !Gone(own, current, leader, s))
                || (s in own.managed && s in current)
                || ReportedOpen(parts[k].value, s)))
  {
    var f, part := followers[k].id, parts[k].value;
    PartOfCycle(c, clients, followers, market, ledger, parts, k);
    PartBooksExactly(c, clients[f], SnapshotOf(followers[k], market), part, s);
    ObservedIsDue(ledger, f, ledger.positions[f].Keys, market.leader.Keys, SupportedBy(market, f), s);
    hide PartsDone, Complete, LeaderObserved, AfterParts, Due, Gone, Finished, ReportedOpen;
  }

  /** A follower whose snapshot failed keeps its books but for what the leader lifts, and its positions. */
  lemma SkippedExactly(c: Settings, clients: map<string, FakeExchange>, followers: seq<Follower>,
                       market: LeaderMarket, ledger: Ledger, parts: Parts, k: nat)
    requires PartsDone(c, clients, followers, market, LeaderObserved(ledger, market.leader.Keys), parts)
    requires DistinctFollowers(followers) && k < |parts| && parts[k].None?
    ensures SameFor(followers[k].id, LeaderObserved(ledger, market.leader.Keys),
                    AfterCycle(followers, market, ledger, parts))
  {
    var observed := LeaderObserved(ledger, market.leader.Keys);
    BeginsAsFound(c, clients, followers, market, observed, parts, k);
    AfterOneMore(observed, followers, parts, k);
    hide PartsDone, LeaderObserved, AfterParts;
  }

  /** After a cycle that saw the leader without a symbol, nobody is barred from it on the leader's account. */
  lemma LiftedByCycle(c: Settings, clients: map<string, FakeExchange>, followers: seq<Follower>,
                      market: LeaderMarket, ledger: Ledger, parts: Parts, k: nat, s: string)
    requires PartsDone(c, clients, followers, market, LeaderObserved(ledger, market.leader.Keys), parts)
    requires DistinctFollowers(followers) && k < |parts| && s !in market.leader
    requires followers[k].id in ledger.books.followers
    ensures
      var f, after := followers[k].id, AfterCycle(followers, market, ledger, parts).books;
      s !in after.blocked && f in after.followers && s !in after.followers[f].suspended
  {
    if parts[k].Some? {
      CycleBooksExactly(c, clients, followers, market, ledger, parts, k, s);
    } else {
      SkippedExactly(c, clients, followers, market, ledger, parts, k);
      ObservedIsDue(ledger, followers[k].id, {}, market.leader.Keys, {}, s);
    }
    hide PartsDone, LeaderObserved, AfterCycle, Due, Finished, ReportedOpen, DistinctFollowers;
  }

  /**
    Waiting has an end. Once a cycle has seen the leader without a symbol, blocked or suspended as it may have been,
    the next cycle that sees the leader hold it has a run for it wherever the follower's exchange lists it and a
    target can be worked out, unless the symbol is protected, or the follower holds it unmanaged or lacks it managed.
  */
  lemma WaitEndsWithFlat(c: Settings, clients: map<string, FakeExchange>, followers: seq<Follower>,
                         market: LeaderMarket, ledger: Ledger, parts: Parts,
                         next: LeaderMarket, later: Ledger, laterParts: Parts, k: nat, s: string)
    requires PartsDone(c, clients, followers, market, LeaderObserved(ledger, market.leader.Keys), parts)
    requires PartsDone(c, clients, followers, next, LeaderObserved(later, next.leader.Keys), laterParts)
    requires DistinctFollowers(followers) && k < |parts| && k < |laterParts| && laterParts[k].Some?
    requires later.books == AfterCycle(followers, market, ledger, parts).books && later.books.Partitioned()
    requires s !in market.leader && s in next.leader && s in SupportedBy(next, followers[k].id)
    requires
      var f := followers[k].id;
      && f in ledger.books.followers && f in later.books.followers && f in later.positions
      && s !in later.books.followers[f].protected
      && (s in later.books.followers[f].managed <==> s in later.positions[f])
    ensures followers[k].id in next.equities
    ensures HasTarget(laterParts[k].value.targets, s) <==> TargetIn(next, followers[k], s).Ok?
  {
    LiftedByCycle(c, clients, followers, market, ledger, parts, k, s);
    CycleTargetsExactly(c, clients, followers, next, later, laterParts, k, s);
    assert later.books.followers[followers[k].id].Disjoint();
    hide PartsDone, LeaderObserved, AfterCycle, HasTarget, Calculate, DistinctFollowers;
  }

  // ----- What others opened -----

  /** One cycle of a history. */
  datatype Cycle = Cycle(market: LeaderMarket, before: Ledger, parts: Parts)

  /** Cycle after cycle, with the books handed on; positions and cooldowns may be anything in between. */
  ghost predicate Ongoing(c: Settings, clients: map<string, FakeExchange>, followers: seq<Follower>,
                          cycles: seq<Cycle>)
  {
    && (forall i :: 0 <= i < |cycles| ==> CycleDone(c, clients, followers, cycles[i]))
    && (forall i, j :: 0 <= i < j < |cycles| && j == i + 1 ==>
          && CycleDone(c, clients, followers, cycles[i])
          && cycles[j].before.books == After(followers, cycles[i]).books)
  }

  ghost predicate CycleDone(c: Settings, clients: map<string, FakeExchange>, followers: seq<Follower>, now: Cycle) {
    && |now.parts| == |followers|
    && PartsDone(c, clients, followers, now.market, LeaderObserved(now.before, now.market.leader.Keys), now.parts)
  }

  function After(followers: seq<Follower>, now: Cycle): Ledger
    requires |now.parts| <= |followers|
  {
    AfterCycle(followers, now.market, now.before, now.parts)
  }

  /** In this cycle the follower has no run for the symbol; its position is untouched, and it is protected after. */
  ghost predicate LeftAlone(followers: seq<Follower>, now: Cycle, k: nat, s: string)
    requires k < |followers| == |now.parts|
  {
    var f, after := followers[k].id, After(followers, now);
    && (now.parts[k].Some? ==> !HasTarget(now.parts[k].value.targets, s))
    && f in now.before.positions && f in after.positions
    && Leg(after.positions[f], s) == Leg(now.before.positions[f], s)
    && f in after.books.followers
    && s in after.books.followers[f].protected && s !in after.books.followers[f].managed
  }

  lemma NoTargetNoChange(c: Settings, client: FakeExchange, snapshot: Snapshot, part: Part, s: string)
    requires Complete(c, client, snapshot, part) && !HasTarget(part.targets, s)
    ensures Leg(part.after.positions, s) == Leg(part.account.positions, s)
  {
    HasTargetMeans(part.targets, s);
    hide Planned, Settlement, Ran, Symbols, Leg, HasTarget;
  }

  /** A symbol that the follower does not manage, and that is protected or open, is left alone. */
  lemma CycleLeavesAlone(c: Settings, clients: map<string, FakeExchange>, followers: seq<Follower>, now: Cycle,
                         k: nat, s: string)
    requires CycleDone(c, clients, followers, now) && DistinctFollowers(followers) && k < |followers|
    requires
      var f := followers[k].id;
      && f in now.before.books.followers && f in now.before.positions
      && var own := now.before.books.followers[f];
      && s !in own.managed
      && (|| s in own.protected
          || (now.parts[k].Some? && s in now.before.positions[f] && !(s in own.suspended && s in now.market.leader)))
    ensures LeftAlone(followers, now, k, s)
  {
    var f := followers[k].id;
    if now.parts[k].Some? {
      var part := now.parts[k].value;
      CycleBooksExactly(c, clients, followers, now.market, now.before, now.parts, k, s);
      CycleTargetsExactly(c, clients, followers, now.market, now.before, now.parts, k, s);
      PartOfCycle(c, clients, followers, now.market, now.before, now.parts, k);
      hide PartsDone, LeaderObserved, AfterParts, HasTarget, Calculate, DistinctFollowers, Complete, Leg, Finished;
      hide ReportedOpen;
      NoTargetNoChange(c, clients[f], SnapshotOf(followers[k], now.market), part, s);
    } else {
      SkippedExactly(c, clients, followers, now.market, now.before, now.parts, k);
      ObservedIsDue(now.before, f, {}, now.market.leader.Keys, {}, s);
      hide PartsDone, LeaderObserved, AfterParts, HasTarget, DistinctFollowers, Leg, Due, Gone;
    }
  }

  /**
    What a user opens by hand stays the user's. A symbol that a cycle finds open and that is neither managed nor
    suspended is left alone by that cycle and by every later one, whatever happens in between, and stays protected.
  */
  lemma {:induction false} ForeignPositionIsLeftAlone(c: Settings, clients: map<string, FakeExchange>,
                                                      followers: seq<Follower>, cycles: seq<Cycle>, k: nat, s: string,
                                                      i: nat)
    requires Ongoing(c, clients, followers, cycles) && DistinctFollowers(followers)
    requires k < |followers| && i < |cycles|
    requires forall j :: 0 <= j < |cycles| ==> followers[k].id in cycles[j].before.positions
    requires
      var f, first := followers[k].id, cycles[0];
      && |first.parts| == |followers| && first.parts[k].Some?
      && s in first.before.positions[f] && f in first.before.books.followers
      && s !in first.before.books.followers[f].managed
      && !(s in first.before.books.followers[f].suspended && s in first.market.leader)
    ensures |cycles[i].parts| == |followers| && LeftAlone(followers, cycles[i], k, s)
    decreases i
  {
    hide CycleDone, After, HasTarget, Leg, DistinctFollowers;
    DoneAt(c, clients, followers, cycles, i);
    if i > 0 {
      ForeignPositionIsLeftAlone(c, clients, followers, cycles, k, s, i - 1);
    }
    CycleLeavesAlone(c, clients, followers, cycles[i], k, s);
  }

  lemma DoneAt(c: Settings, clients: map<string, FakeExchange>, followers: seq<Follower>, cycles: seq<Cycle>, i: nat)
    requires Ongoing(c, clients, followers, cycles) && i < |cycles|
    ensures CycleDone(c, clients, followers, cycles[i]) && |cycles[i].parts| == |followers|
    ensures i > 0 ==> |cycles[i - 1].parts| == |followers|
    ensures i > 0 ==> cycles[i].before.books == After(followers, cycles[i - 1]).books
  {
    hide PartsDone, After;
  }
}
