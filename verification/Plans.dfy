/**
  What a cycle plans and what it writes down, symbol by symbol, from the books and positions it begins with
  (perpmirror/app.py: full_reconcile).
*/
module Plans {
  import opened Wrappers
  import opened Models
  import opened Exchange
  import opened Executor
  import opened Reconciler
  import opened Calculator
  import opened RunResults
  import opened Gather
  import opened Rounds
  import Ownership

  // ----- One follower -----

  /** An observed symbol of which the follower holds nothing while the leader does: it is suspended. */
  predicate Gone(own: Ownership.FollowerOwnership, current: set<string>, leader: set<string>, s: string) {
    s in own.observed && s !in current && s in leader
  }

  /**
    The symbol is the follower's business in this cycle: one that is managed, or one that the leader holds, the
    follower does not, and nothing bars. Where the leader holds it, the follower's exchange must list it.
  */
  predicate Due(own: Ownership.FollowerOwnership, blocked: set<string>, current: set<string>, leader: set<string>,
                supported: set<string>, s: string)
  {
    && !Gone(own, current, leader, s)
    && (|| s in own.managed
        || (s in leader && s !in current && s !in blocked && s !in own.protected && s !in own.suspended))
    && (s in leader ==> s in supported)
  }

  ghost predicate HasTarget(targets: seq<Target>, s: string) {
    exists k :: 0 <= k < |targets| && targets[k].symbol == s
  }

  /** What the calculator makes of the leader's position in the symbol. */
  function Calculated(snapshot: Snapshot, s: string): Result<Target, Error> {
    Calculate(snapshot.config, if s in snapshot.leader then Some(snapshot.leader[s]) else None, snapshot.leaderEquity,
              snapshot.followerEquity, s)
  }

  /** The sets after the survey. */
  lemma SurveyedExactly(books: Ownership.Books, f: string, current: set<string>, leader: set<string>, s: string)
    requires f in books.followers
    ensures
      var seen, own := Surveyed(books, f, current, leader), books.followers[f];
      && f in seen.followers && seen.blocked == books.blocked
      && seen.followers == books.followers[f := seen.followers[f]]
      && var next := seen.followers[f];
      && (s in next.protected <==> s in own.protected || (s in current && s !in own.managed && s !in own.suspended))
      && (s in next.managed <==> s in own.managed && !Gone(own, current, leader, s))
      && (s in next.suspended <==> s in own.suspended || Gone(own, current, leader, s))
      && (s in next.observed <==>
            !Gone(own, current, leader, s) && (s in own.observed || (s in own.managed && s in current)))
  {
    var once := Ownership.Apply(books, Ownership.FollowerSeen(f, current, leader));
    Ownership.MembershipExactly(books, Ownership.FollowerSeen(f, current, leader), f, s);
    Ownership.MembershipExactly(once, Ownership.UnmanagedProtected(f, current), f, s);
  }

  lemma CandidatesExactly(books: Ownership.Books, snapshot: Snapshot, current: set<string>, s: string)
    requires snapshot.config.id in books.followers
    ensures
      var f, leader := snapshot.config.id, snapshot.leader.Keys;
      var seen, own := Surveyed(books, f, current, leader), books.followers[f];
      && f in seen.followers
      && (s in snapshot.Targeted(seen.followers[f].managed, seen.Candidates(f, leader)) <==>
            Due(own, books.blocked, current, leader, snapshot.supported, s) && Calculated(snapshot, s).Ok?)
      && (Due(own, books.blocked, current, leader, snapshot.supported, s) && Calculated(snapshot, s).Ok? ==>
            snapshot.TargetFor(seen.followers[f].managed, s) == Some(Calculated(snapshot, s).value))
      && (s in snapshot.Claims(seen.Candidates(f, leader)) || s in seen.followers[f].managed <==>
            || (s in own.managed && !Gone(own, current, leader, s))
            || Due(own, books.blocked, current, leader, snapshot.supported, s))
  {
    SurveyedExactly(books, snapshot.config.id, current, snapshot.leader.Keys, s);
    hide Surveyed, Calculate;
  }

  lemma HasTargetMeans(targets: seq<Target>, s: string)
    ensures HasTarget(targets, s) <==> s in Symbols(targets)
  {}

  lemma CompleteMeans(c: Settings, client: FakeExchange, snapshot: Snapshot, part: Part)
    requires Complete(c, client, snapshot, part)
    ensures
      var f, leader, current := snapshot.config.id, snapshot.leader.Keys, part.account.positions.Keys;
      var seen := Surveyed(part.books, f, current, leader);
      && f in part.books.followers && f in seen.followers
      && Distinct(part.targets)
      && Symbols(part.targets) == snapshot.Targeted(seen.followers[f].managed, seen.Candidates(f, leader))
      && (forall t :: t in part.targets ==> snapshot.TargetFor(seen.followers[f].managed, t.symbol) == Some(t))
      && part.booksAfter == Settlement(snapshot, seen, part.targets, part.results)
  {
    hide Gathered, Distinct, Symbols, Snapshot.Targeted, Snapshot.TargetFor, Ownership.Books.Candidates, Settlement;
    var op := Ownership.FollowerSeen(snapshot.config.id, part.account.positions.Keys, snapshot.leader.Keys);
    assert Ownership.Apply(part.books, op).followers.Keys == part.books.followers.Keys;
    hide Ownership.Books.ObserveLeader, Ownership.FollowerOwnership.Observe;
  }

  /**
    Which runs a follower's part has: exactly one for each symbol that is due and whose target can be worked out,
    and that target is the calculator's for the leader's position.
  */
  lemma TargetsExactly(c: Settings, client: FakeExchange, snapshot: Snapshot, part: Part, s: string)
    requires Complete(c, client, snapshot, part)
    ensures snapshot.config.id in part.books.followers && Distinct(part.targets)
    ensures
      var due := Due(part.books.followers[snapshot.config.id], part.books.blocked, part.account.positions.Keys,
                     snapshot.leader.Keys, snapshot.supported, s);
      && (HasTarget(part.targets, s) <==> due && Calculated(snapshot, s).Ok?)
      && forall t :: t in part.targets && t.symbol == s ==> Calculated(snapshot, s) == Ok(t)
  {
    CompleteMeans(c, client, snapshot, part);
    CandidatesExactly(part.books, snapshot, part.account.positions.Keys, s);
    HasTargetMeans(part.targets, s);
    forall t | t in part.targets && t.symbol == s
      ensures HasTarget(part.targets, s)
    {
      var k :| 0 <= k < |part.targets| && part.targets[k] == t;
    }
    hide Complete, Surveyed, Symbols, Snapshot.Targeted, Snapshot.TargetFor, Due, Calculated, HasTarget, Settlement;
    hide Distinct, Ownership.Books.Candidates;
  }

  /** A run for the symbol reported an open position. */
  ghost predicate ReportedOpen(part: Part, s: string) {
    exists k :: 0 <= k < |part.targets| && k < |part.results| && part.targets[k].symbol == s
                && part.results[k].finalNotional.Some? && part.results[k].finalNotional.value > 0.0
  }

  /** A run for the symbol succeeded and reported no position, and the leader has none. */
  ghost predicate Finished(part: Part, leader: set<string>, s: string) {
    exists k :: 0 <= k < |part.targets| && k < |part.results| && part.targets[k].symbol == s
                && s !in leader && part.results[k].success && part.results[k].finalNotional == Some(0.0)
  }

  lemma ReportsMean(part: Part, leader: set<string>, s: string)
    ensures ReportedOpen(part, s) <==> s in Held(part.targets, part.results)
    ensures Finished(part, leader, s) <==> s in Flattened(leader, part.targets, part.results)
  {}

  lemma SettlementExactly(snapshot: Snapshot, seen: Ownership.Books, targets: seq<Target>,
                          results: seq<ReconcileResult>, s: string)
    requires snapshot.config.id in seen.followers
    ensures
      var f, leader := snapshot.config.id, snapshot.leader.Keys;
      var own, after := seen.followers[f], Settlement(snapshot, seen, targets, results);
      var flat := s in Flattened(leader, targets, results);
      && f in after.followers && after.blocked == seen.blocked
      && after.followers == seen.followers[f := after.followers[f]]
      && var next := after.followers[f];
      && next.protected == own.protected && next.suspended == own.suspended
      && (s in next.managed <==> (s in own.managed || s in snapshot.Claims(seen.Candidates(f, leader))) && !flat)
      && (s in next.observed <==> (s in own.observed || s in Held(targets, results)) && !flat)
  {
    hide Held, Flattened, Snapshot.Claims, Ownership.Books.Candidates;
  }

  /**
    The books after a follower's part. Found symbols are protected and vanished ones suspended; the symbols that are
    due are managed, those seen open observed, and finished ones released. Nothing else of the books has changed.
  */
  lemma PartBooksExactly(c: Settings, client: FakeExchange, snapshot: Snapshot, part: Part, s: string)
    requires Complete(c, client, snapshot, part)
    ensures snapshot.config.id in part.books.followers
    ensures
      var f, leader, current := snapshot.config.id, snapshot.leader.Keys, part.account.positions.Keys;
      var own, after := part.books.followers[f], part.booksAfter;
      && f in after.followers && after.blocked == part.books.blocked
      && after.followers == part.books.followers[f := after.followers[f]]
      && var next := after.followers[f];
      && (s in next.protected <==> s in own.protected || (s in current && s !in own.managed && s !in own.suspended))
      && (s in next.suspended <==> s in own.suspended || Gone(own, current, leader, s))
      && (s in next.managed <==>
            && !Finished(part, leader, s)
            && ((s in own.managed && !Gone(own, current, leader, s))
                || Due(own, part.books.blocked, current, leader, snapshot.supported, s)))
      && (s in next.observed <==>
            && !Finished(part, leader, s)
            && (|| (s in own.observed && !Gone(own, current, leader, s))
                || (s in own.managed && s in current)
                || ReportedOpen(part, s)))
  {
    var f, leader, current := snapshot.config.id, snapshot.leader.Keys, part.account.positions.Keys;
    CompleteMeans(c, client, snapshot, part);
    var seen := Surveyed(part.books, f, current, leader);
    SurveyedExactly(part.books, f, current, leader, s);
    CandidatesExactly(part.books, snapshot, current, s);
    SettlementExactly(snapshot, seen, part.targets, part.results, s);
    ReportsMean(part, leader, s);
    hide Complete, Surveyed, Settlement, Symbols, Snapshot.Targeted, Snapshot.TargetFor, Snapshot.Claims, Due;
    hide Calculated, Held, Flattened, ReportedOpen, Finished, Distinct, Ownership.Books.Candidates;
    assert part.books.followers[f := seen.followers[f]][f := part.booksAfter.followers[f]]
        == part.books.followers[f := part.booksAfter.followers[f]];
  }

  /** Whether a follower's leverage and equity let a flat target be worked out. */
  predicate CanClose(config: Follower, equity: real) {
    config.maxLeverage > 0.0 && config.fixedLeverage > 0.0 && (config.copyMode == Ratio ==> equity >= 0.0)
  }

  lemma FlatCalculation(snapshot: Snapshot, s: string)
    requires s !in snapshot.leader
    ensures
      var r := Calculated(snapshot, s);
      && (r.Ok? <==> CanClose(snapshot.config, snapshot.followerEquity))
      && (r.Ok? ==> r.value.symbol == s && r.value.side == Flat && r.value.notional == 0.0)
  {}

  /**
    Following the leader out. A managed symbol that the leader no longer holds gets a flat target, whatever else is
    the case, unless the follower's leverage or equity is unusable ...
  */
  lemma LeaderFlatIsFollowed(c: Settings, client: FakeExchange, snapshot: Snapshot, part: Part, s: string)
    requires Complete(c, client, snapshot, part)
    requires snapshot.config.id in part.books.followers && s in part.books.followers[snapshot.config.id].managed
    requires s !in snapshot.leader
    ensures HasTarget(part.targets, s) <==> CanClose(snapshot.config, snapshot.followerEquity)
    ensures forall t :: t in part.targets && t.symbol == s ==> t.side == Flat && t.notional == 0.0
  {
    TargetsExactly(c, client, snapshot, part, s);
    FlatCalculation(snapshot, s);
    hide Complete, Calculated, HasTarget, CanClose, Distinct;
  }

  /** ... and when its run reports a live success, the follower holds nothing in it and it is released. */
  lemma FollowedOutIsReleased(c: Settings, client: FakeExchange, snapshot: Snapshot, part: Part, k: nat)
    requires Complete(c, client, snapshot, part) && |part.results| == |part.targets| && k < |part.targets|
    requires part.targets[k].symbol !in snapshot.leader && part.results[k].success
    requires !c.dryRun && GoodEntries(part.account.cooldowns) && c.maxRetries >= 0
    ensures part.targets[k].symbol !in part.after.positions
    ensures snapshot.config.id in part.booksAfter.followers
    ensures part.targets[k].symbol !in part.booksAfter.followers[snapshot.config.id].managed
  {
    var s := part.targets[k].symbol;
    assert part.targets[k] in part.targets;
    TargetsExactly(c, client, snapshot, part, s);
    FlatCalculation(snapshot, s);
    PartBooksExactly(c, client, snapshot, part, s);
    RanAt(c, client, snapshot, part, k);
    hide Complete, Calculated, CanClose, Distinct, Due, Gone, Ran, GoodEntries, HasTarget;
    FlatSuccess(c, client, part.envs[k], part.targets[k], part.account, part.after, part.results[k]);
    assert Finished(part, snapshot.leader.Keys, s);
    hide Finished;
  }

  lemma RanAt(c: Settings, client: FakeExchange, snapshot: Snapshot, part: Part, k: nat)
    requires Complete(c, client, snapshot, part) && k < |part.targets|
    ensures |part.envs| == |part.results| == |part.targets|
    ensures Ran(c, client, part.envs[k], part.targets[k], part.account, part.after, part.results[k])
  {
    hide Planned, Surveyed, Settlement, Ran;
  }

  /** A live success for a flat target leaves nothing and says so. */
  lemma FlatSuccess(c: Settings, client: FakeExchange, e: Env, t: Target, before: Account, after: Account,
                    result: ReconcileResult)
    requires Ran(c, client, e, t, before, after, result) && t.side == Flat
    requires !c.dryRun && GoodEntries(before.cooldowns) && c.maxRetries >= 0
    requires result.success
    ensures t.symbol !in after.positions && result.finalNotional == Some(0.0)
  {
    hide Reconcile;
    ReportIsTruthful(c, e, t, Leg(before.positions, t.symbol), Entry(before.cooldowns, KeyOf(t)));
  }
}
