/**
  Reconcile cycles as a machine that stops at every effect (perpmirror/app.py: full_reconcile and
  initialize_position_ownership), in live mode.

  Between two effects the program may crash, and anybody may trade. The books of a world are those its state
  file loads to: `PositionOwnership` keeps memory and file equal, and a file of the older version counts as the
  books it is migrated to.
*/
module Cycles {
  import opened Wrappers
  import opened Ownership

  datatype Phase =
    | Down                                                                        // not running
    | Starting(found: map<string, set<string>>, todo: set<string>)                // protecting what nobody owns
    | Idle                                                                        // between cycles
    | Between(leader: set<string>)                                                // in a cycle, between followers
    | Seen(leader: set<string>, follower: string, current: set<string>)           // its snapshot has been observed
    | Planning(leader: set<string>, follower: string, symbols: set<string>)       // candidates known, claiming
    | Trading(leader: set<string>, follower: string, targets: set<string>,        // runs under way, and what the
              running: set<string>, flat: set<string>)                            // finished ones reported flat
    | Settling(leader: set<string>, follower: string, targets: set<string>, flat: set<string>)

  /** The books on file (none before the first start), the followers' open symbols, and where the program is. */
  datatype World = World(books: Option<Books>, open: map<string, set<string>>, phase: Phase)

  datatype Event =
    | Boot(leader: set<string>)
    | ProtectFound(follower: string)
    | Started
    | Begin(leader: set<string>)
    | Look(follower: string)
    | ProtectNew
    | Claim(symbol: string)
    | Launch(targets: set<string>)
    | Trade(symbol: string, isOpen: bool)
    | Report(symbol: string, isFlat: bool)                      // a run returns, with success and flat or otherwise
    | Land                                                      // all runs have returned
    | Mark(symbol: string)
    | Release(symbol: string)
    | NextFollower
    | Rest
    | Crash
    | Outside(follower: string, symbol: string, isOpen: bool)   // somebody else trades

  ghost predicate Enabled(w: World, event: Event) {
    match event
    case Boot(_) => w.phase.Down?
    case ProtectFound(f) => w.phase.Starting? && f in w.phase.todo && f in w.phase.found
    case Started => w.phase.Starting? && w.phase.todo == {}
    case Begin(_) => w.phase.Idle?
    case Look(f) => w.phase.Between? && f in w.open
    case ProtectNew => w.phase.Seen?
    case Claim(s) =>
      && w.phase.Planning? && w.books.Some? && w.phase.follower in w.books.value.followers
      && s in w.phase.symbols && s in w.phase.leader && s !in w.books.value.followers[w.phase.follower].managed
    case Launch(targets) =>
      && w.phase.Planning? && w.books.Some? && w.phase.follower in w.books.value.followers
      && targets <= w.phase.symbols && targets <= w.books.value.followers[w.phase.follower].managed
    case Trade(s, _) => w.phase.Trading? && s in w.phase.running && w.phase.follower in w.open
    case Report(s, isFlat) =>
      && w.phase.Trading? && s in w.phase.running && w.phase.follower in w.open
      && (isFlat ==> s !in w.open[w.phase.follower])
    case Land => w.phase.Trading? && w.phase.running == {}
    case Mark(s) => w.phase.Settling? && s in w.phase.targets - w.phase.flat
    case Release(s) => w.phase.Settling? && s in w.phase.flat && s !in w.phase.leader
    case NextFollower => w.phase.Planning? || w.phase.Settling?
    case Rest => w.phase.Between?
    case Crash => true
    case Outside(f, _, _) => f in w.open
  }

  function Write(w: World, op: Operation, phase: Phase): World {
    match w.books
    case None => w
    case Some(books) => World(Some(Apply(books, op)), w.open, phase)
  }

  function SetOpen(w: World, f: string, symbol: string, isOpen: bool): World
    requires f in w.open
  {
    w.(open := w.open[f := if isOpen then w.open[f] + {symbol} else w.open[f] - {symbol}])
  }

  function OnFile(identity: Identity, books: Option<Books>): Option<StoredState> {
    match books
    case None => None
    case Some(b) => Some(Save(identity, b))
  }

  ghost function Next(identity: Identity, w: World, event: Event): World
    requires Enabled(w, event)
  {
    match event
    case Boot(leader) =>
      (match Opened(identity, OnFile(identity, w.books), leader, w.open)
       case Ok(books) => World(Some(books), w.open, Starting(w.open, w.open.Keys))
       case Err(_) => w)
    case ProtectFound(f) =>
      Write(w, UnmanagedProtected(f, w.phase.found[f]), Starting(w.phase.found, w.phase.todo - {f}))
    case Started => w.(phase := Idle)
    case Begin(leader) => Write(w, LeaderSeen(leader), Between(leader))
    case Look(f) => Write(w, FollowerSeen(f, w.open[f], w.phase.leader), Seen(w.phase.leader, f, w.open[f]))
    case ProtectNew =>
      var Seen(leader, f, current) := w.phase;
      var next := Write(w, UnmanagedProtected(f, current), w.phase);
      if next.books.Some? && f in next.books.value.followers then
        next.(phase := Planning(leader, f, next.books.value.Candidates(f, leader)))
      else next
    case Claim(s) => Write(w, Claimed(w.phase.follower, s), w.phase)
    case Launch(targets) => w.(phase := Trading(w.phase.leader, w.phase.follower, targets, targets, {}))
    case Trade(s, isOpen) => SetOpen(w, w.phase.follower, s, isOpen)
    case Report(s, isFlat) =>
      var reported := if isFlat then w.phase.flat + {s} else w.phase.flat;
      w.(phase := Trading(w.phase.leader, w.phase.follower, w.phase.targets, w.phase.running - {s}, reported))
    case Land => w.(phase := Settling(w.phase.leader, w.phase.follower, w.phase.targets, w.phase.flat))
    case Mark(s) => Write(w, PositionMarked(w.phase.follower, s), w.phase)
    case Release(s) => Write(w, Released(w.phase.follower, s), w.phase)
    case NextFollower => w.(phase := Between(w.phase.leader))
    case Rest => w.(phase := Idle)
    case Crash => w.(phase := Down)
    case Outside(f, s, isOpen) => SetOpen(w, f, s, isOpen)
  }

  ghost predicate Reaches(identity: Identity, from: World, events: seq<Event>, to: World)
    decreases |events|
  {
    if events == [] then from == to
    else
      var last := |events| - 1;
      exists mid ::
        && Reaches(identity, from, events[..last], mid)
        && Enabled(mid, events[last]) && to == Next(identity, mid, events[last])
  }

  predicate InCycle(phase: Phase) {
    !phase.Down? && !phase.Starting? && !phase.Idle?
  }

  // ----- What every world keeps -----

  /** One owner per symbol, and only claimable or managed symbols are planned, only managed ones traded. */
  ghost predicate Sound(w: World) {
    && (w.books.None? ==> w.phase.Down?)
    && (w.books.Some? ==>
          var books := w.books.value;
          && books.Partitioned() && books.followers.Keys == w.open.Keys
          && (w.phase.Seen? || w.phase.Planning? || w.phase.Trading? || w.phase.Settling? ==>
                w.phase.follower in books.followers)
          && (w.phase.Planning? ==> w.phase.symbols <= books.Candidates(w.phase.follower, w.phase.leader))
          && (w.phase.Starting? ==> w.phase.todo <= w.phase.found.Keys)
          && (w.phase.Trading? ==>
                && w.phase.targets <= books.followers[w.phase.follower].managed
                && w.phase.running <= w.phase.targets && w.phase.flat <= w.phase.targets - w.phase.running)
          && (w.phase.Settling? ==> w.phase.flat <= w.phase.targets))
  }

  /** Saved books load again, so a restart starts from what is on file. */
  lemma RestartReadsBooks(identity: Identity, books: Books, leader: set<string>, current: map<string, set<string>>)
    requires books.Partitioned() && books.followers.Keys == current.Keys
    ensures Opened(identity, Some(Save(identity, books)), leader, current) == Ok(books)
  {
    SaveLoadRoundTrip(identity, books);
  }

  lemma ClaimKeepsCandidates(books: Books, f: string, leader: set<string>, symbol: string)
    requires f in books.followers
    ensures
      var after := Apply(books, Claimed(f, symbol));
      f in after.followers && books.Candidates(f, leader) <= after.Candidates(f, leader)
  {}

  lemma StepKeepsSound(identity: Identity, w: World, event: Event)
    requires Sound(w) && Enabled(w, event)
    ensures Sound(Next(identity, w, event))
  {
    hide Apply, Load, Save, FirstStart, Books.Candidates, Books.Partitioned;
    match event {
      case Boot(leader) =>
        if w.books.Some? {
          RestartReadsBooks(identity, w.books.value, leader, w.open);
        }
      case ProtectFound(f) => OperationKeepsPartition(w.books.value, UnmanagedProtected(f, w.phase.found[f]));
      case Begin(leader) => OperationKeepsPartition(w.books.value, LeaderSeen(leader));
      case Look(f) => OperationKeepsPartition(w.books.value, FollowerSeen(f, w.open[f], w.phase.leader));
      case ProtectNew => OperationKeepsPartition(w.books.value, UnmanagedProtected(w.phase.follower, w.phase.current));
      case Claim(s) =>
        OperationKeepsPartition(w.books.value, Claimed(w.phase.follower, s));
        ClaimKeepsCandidates(w.books.value, w.phase.follower, w.phase.leader, s);
      case Mark(s) => OperationKeepsPartition(w.books.value, PositionMarked(w.phase.follower, s));
      case Release(s) => OperationKeepsPartition(w.books.value, Released(w.phase.follower, s));
      case _ =>
    }
    if event.Boot? && w.books.None? {
      FirstStartIsSound(event.leader, w.open);
    }
  }

  lemma FirstStartIsSound(leader: set<string>, open: map<string, set<string>>)
    ensures FirstStart(leader, open).Partitioned() && FirstStart(leader, open).followers.Keys == open.Keys
  {}

  lemma {:induction false} TraceKeepsSound(identity: Identity, from: World, events: seq<Event>, to: World)
    requires Sound(from) && Reaches(identity, from, events, to)
    ensures Sound(to)
    decreases |events|
  {
    hide Sound, Next, Enabled;
    if events != [] {
      var last := |events| - 1;
      var mid :|
        && Reaches(identity, from, events[..last], mid)
        && Enabled(mid, events[last]) && to == Next(identity, mid, events[last]);
      TraceKeepsSound(identity, from, events[..last], mid);
      StepKeepsSound(identity, mid, events[last]);
    }
  }

  /** In every world of every run, a claim that a cycle makes passes all three guards. */
  lemma ClaimsAreNeverRefused(identity: Identity, from: World, events: seq<Event>, w: World, symbol: string)
    requires Sound(from) && Reaches(identity, from, events, w) && Enabled(w, Claim(symbol))
    ensures Claimable(w.books.value, w.phase.follower, symbol)
    ensures symbol in Next(identity, w, Claim(symbol)).books.value.followers[w.phase.follower].managed
  {
    TraceKeepsSound(identity, from, events, w);
    CandidatesAreClaimable(w.books.value, w.phase.follower, w.phase.leader, symbol);
  }

  // ----- Crash safety -----

  /** Every open follower symbol is on file as managed or protected. */
  ghost predicate Covered(w: World) {
    w.books.Some? ==>
      forall f :: f in w.open && f in w.books.value.followers ==>
        w.open[f] <= w.books.value.followers[f].managed + w.books.value.followers[f].protected
  }

  /** A symbol observed as missing, or found flat by its run, is still not open. */
  ghost predicate Current(w: World) {
    && ((w.phase.Trading? || w.phase.Settling?) && w.phase.follower in w.open ==>
          w.phase.flat !! w.open[w.phase.follower])
    && (w.phase.Starting? ==> w.phase.found == w.open)
    && (w.phase.Seen? && w.phase.follower in w.open ==> w.phase.current == w.open[w.phase.follower])
  }

  lemma StepKeepsCovered(identity: Identity, w: World, event: Event)
    requires Sound(w) && Covered(w) && Current(w)
    requires Enabled(w, event) && !event.Outside?
    ensures Covered(Next(identity, w, event)) && Current(Next(identity, w, event))
  {
    var next := Next(identity, w, event);
    if event.Boot? && w.books.Some? {
      RestartReadsBooks(identity, w.books.value, event.leader, w.open);
    }
    if next.books.Some? {
      forall f | f in next.open && f in next.books.value.followers
        ensures next.open[f] <= next.books.value.followers[f].managed + next.books.value.followers[f].protected
      {
        assert w.books.Some? ==> f in w.books.value.followers && w.books.value.followers[f].Disjoint();
      }
    }
  }

  /**
    Crash safety. If only the program trades, then in every world of every run, between any two effects and
    across any number of crashes and restarts, the file covers every open follower symbol ...
  */
  lemma {:induction false} FileCoversOpenSymbols(identity: Identity, from: World, events: seq<Event>, to: World)
    requires Sound(from) && Covered(from) && Current(from) && Reaches(identity, from, events, to)
    requires forall event :: event in events ==> !event.Outside?
    ensures Sound(to) && Covered(to) && Current(to)
    decreases |events|
  {
    hide Sound, Covered, Current, Next, Enabled;
    if events != [] {
      var last := |events| - 1;
      var mid :|
        && Reaches(identity, from, events[..last], mid)
        && Enabled(mid, events[last]) && to == Next(identity, mid, events[last]);
      FileCoversOpenSymbols(identity, from, events[..last], mid);
      assert events[last] in events;
      StepKeepsSound(identity, mid, events[last]);
      StepKeepsCovered(identity, mid, events[last]);
    }
  }

  /** ... so every step of a restart finds every open symbol accounted for and leaves the books as they were. */
  lemma RestartProtectsNothingNew(identity: Identity, from: World, events: seq<Event>, w: World, event: Event)
    requires Sound(from) && Covered(from) && Current(from) && Reaches(identity, from, events, w)
    requires forall earlier :: earlier in events ==> !earlier.Outside?
    requires w.books.Some? && Enabled(w, event) && (event.Boot? || event.ProtectFound? || event.Started?)
    ensures Next(identity, w, event).books == w.books
  {
    FileCoversOpenSymbols(identity, from, events, w);
    hide Reaches, Load, Save;
    match event
    case Boot(leader) => RestartReadsBooks(identity, w.books.value, leader, w.open);
    case ProtectFound(f) => NothingToProtect(w, f);
    case _ =>
  }

  lemma NothingToProtect(w: World, f: string)
    requires Sound(w) && Covered(w) && w.books.Some? && f in w.open
    ensures Apply(w.books.value, UnmanagedProtected(f, w.open[f])) == w.books.value
  {
    var books := w.books.value;
    assert w.open[f] <= books.followers[f].managed + books.followers[f].protected;
    assert books.followers[f].Discovered(w.open[f]) == {};
    assert books.followers[f].Protect(w.open[f]) == books.followers[f];
    assert books.followers[f := books.followers[f]] == books.followers;
  }

  // ----- Wait until flat -----

  /** Some cycle saw the leader without the symbol. */
  ghost predicate SeenFlat(events: seq<Event>, symbol: string) {
    exists i :: 0 <= i < |events| && events[i].Begin? && symbol !in events[i].leader
  }

  /** Some cycle saw the leader without the symbol and a later one saw it with it. */
  ghost predicate FlatThenHeld(events: seq<Event>, symbol: string) {
    exists i, j ::
      && 0 <= i < j < |events|
      && events[i].Begin? && symbol !in events[i].leader && events[j].Begin? && symbol in events[j].leader
  }

  /** The symbol is not managed for the follower, nor about to be. */
  ghost predicate HandsOff(w: World, f: string, symbol: string) {
    && w.books.Some? && f in w.books.value.followers
    && symbol !in w.books.value.followers[f].managed
    && (w.phase.Planning? && w.phase.follower == f ==> symbol !in w.phase.symbols)
    && (w.phase.Trading? && w.phase.follower == f ==> symbol !in w.phase.targets)
  }

  /** It is barred: blocked since the first start, or suspended for the follower. */
  ghost predicate Barred(w: World, f: string, symbol: string) {
    && w.books.Some? && f in w.books.value.followers
    && (symbol in w.books.value.blocked || symbol in w.books.value.followers[f].suspended)
  }

  ghost predicate Waiting(events: seq<Event>, w: World, f: string, symbol: string) {
    || FlatThenHeld(events, symbol)
    || (&& HandsOff(w, f, symbol)
        && (SeenFlat(events, symbol) ==> InCycle(w.phase) ==> symbol !in w.phase.leader)
        && (!SeenFlat(events, symbol) ==> Barred(w, f, symbol)))
  }

  lemma HistoryGrows(events: seq<Event>, event: Event, symbol: string)
    ensures FlatThenHeld(events, symbol) ==> FlatThenHeld(events + [event], symbol)
    ensures SeenFlat(events, symbol) ==> SeenFlat(events + [event], symbol)
    ensures SeenFlat(events + [event], symbol) ==> SeenFlat(events, symbol) || (event.Begin? && symbol !in event.leader)
    ensures SeenFlat(events, symbol) && event.Begin? && symbol in event.leader ==>
      FlatThenHeld(events + [event], symbol)
    ensures event.Begin? && symbol !in event.leader ==> SeenFlat(events + [event], symbol)
  {
    var more := events + [event];
    assert more[|events|] == event;
    assert forall k :: 0 <= k < |events| ==> more[k] == events[k];
    if SeenFlat(events, symbol) {
      var i :| 0 <= i < |events| && events[i].Begin? && symbol !in events[i].leader;
      assert more[i].Begin? && symbol !in more[i].leader;
    }
    if FlatThenHeld(events, symbol) {
      var i, j :|
        && 0 <= i < j < |events|
        && events[i].Begin? && symbol !in events[i].leader && events[j].Begin? && symbol in events[j].leader;
      assert more[i].Begin? && symbol !in more[i].leader && more[j].Begin? && symbol in more[j].leader;
    }
  }

  /** A barred symbol stays barred and out of the plans until a cycle sees the leader without it. */
  lemma StepKeepsBarred(identity: Identity, w: World, event: Event, f: string, symbol: string)
    requires Sound(w) && Enabled(w, event) && HandsOff(w, f, symbol) && Barred(w, f, symbol)
    requires event.Begin? ==> symbol in event.leader
    ensures HandsOff(Next(identity, w, event), f, symbol) && Barred(Next(identity, w, event), f, symbol)
  {
    if event.Boot? {
      BootKeepsHandsOff(identity, w, event.leader, f, symbol);
    }
    hide Opened, OnFile;
  }

  /** While the leader does not hold a symbol, no cycle takes it up. */
  lemma StepKeepsAway(identity: Identity, w: World, event: Event, f: string, symbol: string)
    requires Sound(w) && Enabled(w, event) && HandsOff(w, f, symbol)
    requires InCycle(w.phase) ==> symbol !in w.phase.leader
    requires event.Begin? ==> symbol !in event.leader
    ensures
      var next := Next(identity, w, event);
      HandsOff(next, f, symbol) && (InCycle(next.phase) ==> symbol !in next.phase.leader)
  {
    if event.Boot? {
      BootKeepsHandsOff(identity, w, event.leader, f, symbol);
    }
    hide Opened, OnFile;
  }

  lemma StepKeepsWaiting(identity: Identity, events: seq<Event>, w: World, event: Event, f: string, symbol: string)
    requires Sound(w) && Waiting(events, w, f, symbol) && Enabled(w, event)
    ensures Waiting(events + [event], Next(identity, w, event), f, symbol)
  {
    HistoryGrows(events, event, symbol);
    hide SeenFlat, FlatThenHeld, Sound, HandsOff, Barred, Next;
    if !FlatThenHeld(events + [event], symbol) {
      if SeenFlat(events + [event], symbol) {
        StepKeepsAway(identity, w, event, f, symbol);
      } else {
        StepKeepsBarred(identity, w, event, f, symbol);
      }
    }
  }

  lemma BootKeepsHandsOff(identity: Identity, w: World, leader: set<string>, f: string, symbol: string)
    requires Sound(w) && HandsOff(w, f, symbol) && w.phase.Down?
    ensures
      var next := Next(identity, w, Boot(leader));
      HandsOff(next, f, symbol) && !InCycle(next.phase) && (Barred(w, f, symbol) ==> Barred(next, f, symbol))
  {
    RestartReadsBooks(identity, w.books.value, leader, w.open);
  }

  /**
    Wait until flat. A symbol that is barred and not managed, and not in the plans of the moment, is only
    traded again for that follower after a cycle that saw the leader without it and a later cycle that saw
    the leader hold it again, whatever crashes, restarts and outside trades come between.
  */
  lemma {:induction false} TradesWaitUntilFlat(identity: Identity, from: World, events: seq<Event>, to: World,
                                               f: string, symbol: string)
    requires Sound(from) && HandsOff(from, f, symbol) && Barred(from, f, symbol)
    requires Reaches(identity, from, events, to)
    ensures Waiting(events, to, f, symbol)
    ensures to.phase.Trading? && to.phase.follower == f && symbol in to.phase.targets ==> FlatThenHeld(events, symbol)
    decreases |events|
  {
    if events == [] {
      WaitingFromTheStart(from, f, symbol);
    } else {
      hide Sound, Next, Enabled, Barred, SeenFlat, FlatThenHeld, Waiting, HandsOff;
      var last := |events| - 1;
      var mid :|
        && Reaches(identity, from, events[..last], mid)
        && Enabled(mid, events[last]) && to == Next(identity, mid, events[last]);
      TradesWaitUntilFlat(identity, from, events[..last], mid, f, symbol);
      TraceKeepsSound(identity, from, events[..last], mid);
      StepKeepsWaiting(identity, events[..last], mid, events[last], f, symbol);
      assert events[..last] + [events[last]] == events;
    }
    WaitingMeans(events, to, f, symbol);
    hide FlatThenHeld, Waiting, Reaches;
  }

  lemma WaitingFromTheStart(w: World, f: string, symbol: string)
    requires HandsOff(w, f, symbol) && Barred(w, f, symbol)
    ensures Waiting([], w, f, symbol)
  {}

  lemma WaitingMeans(events: seq<Event>, w: World, f: string, symbol: string)
    requires Waiting(events, w, f, symbol)
    ensures w.phase.Trading? && w.phase.follower == f && symbol in w.phase.targets ==> FlatThenHeld(events, symbol)
  {
    hide FlatThenHeld, SeenFlat, Barred;
  }

  /** A symbol the leader holds at the first start is barred for every follower. */
  lemma FirstStartBars(identity: Identity, open: map<string, set<string>>, leader: set<string>, f: string,
                       symbol: string)
    requires symbol in leader && f in open
    ensures
      var before := World(None, open, Down);
      var w := Next(identity, before, Boot(leader));
      && Sound(before) && Covered(before) && Current(before)
      && Sound(w) && HandsOff(w, f, symbol) && Barred(w, f, symbol)
  {
    StepKeepsSound(identity, World(None, open, Down), Boot(leader));
  }

  /** A managed symbol that was observed and is gone while the leader holds it is barred from that look on. */
  lemma VanishedIsBarred(identity: Identity, w: World, f: string, symbol: string)
    requires Sound(w) && Enabled(w, Look(f))
    requires symbol in w.books.value.followers[f].observed && symbol !in w.open[f] && symbol in w.phase.leader
    ensures HandsOff(Next(identity, w, Look(f)), f, symbol) && Barred(Next(identity, w, Look(f)), f, symbol)
  {}

  /** The whole history of a symbol that the leader already held at the first start. */
  lemma StartupPositionsWaitUntilFlat(identity: Identity, open: map<string, set<string>>, leader: set<string>,
                                      events: seq<Event>, to: World, f: string, symbol: string)
    requires symbol in leader && f in open
    requires Reaches(identity, Next(identity, World(None, open, Down), Boot(leader)), events, to)
    requires to.phase.Trading? && to.phase.follower == f && symbol in to.phase.targets
    ensures FlatThenHeld(events, symbol)
  {
    FirstStartBars(identity, open, leader, f, symbol);
    hide Reaches, Next, FlatThenHeld, Waiting, Sound, HandsOff, Barred;
    TradesWaitUntilFlat(identity, Next(identity, World(None, open, Down), Boot(leader)), events, to, f, symbol);
  }

  lemma StepKeepsProtected(identity: Identity, w: World, event: Event, f: string, symbol: string)
    requires Sound(w) && Enabled(w, event) && HandsOff(w, f, symbol) && symbol in w.books.value.followers[f].protected
    ensures
      var next := Next(identity, w, event);
      HandsOff(next, f, symbol) && symbol in next.books.value.followers[f].protected
  {
    if event.Boot? {
      RestartReadsBooks(identity, w.books.value, event.leader, w.open);
    }
  }

  /** A protected symbol is never managed or traded again. */
  lemma {:induction false} ProtectedStaysUntouched(identity: Identity, from: World, events: seq<Event>, to: World,
                                                   f: string, symbol: string)
    requires Sound(from) && HandsOff(from, f, symbol) && symbol in from.books.value.followers[f].protected
    requires Reaches(identity, from, events, to)
    ensures Sound(to) && HandsOff(to, f, symbol) && symbol in to.books.value.followers[f].protected
    decreases |events|
  {
    if events != [] {
      var last := |events| - 1;
      var mid :|
        && Reaches(identity, from, events[..last], mid)
        && Enabled(mid, events[last]) && to == Next(identity, mid, events[last]);
      hide Sound, Next, Enabled;
      ProtectedStaysUntouched(identity, from, events[..last], mid, f, symbol);
      StepKeepsProtected(identity, mid, events[last], f, symbol);
      StepKeepsSound(identity, mid, events[last]);
    }
  }

  // ----- What others open -----

  /**
    A symbol that is open when a cycle looks at a follower, and is neither managed nor suspended for it, has been
    opened by somebody else. Whatever others do between the look and the step that protects it, from that step on it
    is protected, it is in no plan and no run of any later cycle, and no crash or restart changes that.
  */
  lemma FoundSymbolIsLeftAlone(identity: Identity, w: World, f: string, others: seq<Event>, then_: World,
                               events: seq<Event>, to: World, symbol: string)
    requires Sound(w) && Enabled(w, Look(f))
    requires symbol in w.open[f]
    requires symbol !in w.books.value.followers[f].managed && symbol !in w.books.value.followers[f].suspended
    requires Reaches(identity, Next(identity, w, Look(f)), others, then_)
    requires forall event :: event in others ==> event.Outside?
    requires Enabled(then_, ProtectNew) && Reaches(identity, Next(identity, then_, ProtectNew), events, to)
    ensures Sound(to) && to.books.Some? && f in to.books.value.followers
    ensures symbol in to.books.value.followers[f].protected && symbol !in to.books.value.followers[f].managed
    ensures to.phase.Planning? && to.phase.follower == f ==> symbol !in to.phase.symbols
    ensures to.phase.Trading? && to.phase.follower == f ==> symbol !in to.phase.targets
  {
    StepKeepsSound(identity, w, Look(f));
    var seen := Next(identity, w, Look(f));
    MembershipExactly(w.books.value, FollowerSeen(f, w.open[f], w.phase.leader), f, symbol);
    assert w.books.value.followers[f].Disjoint();
    OthersOnlyTrade(identity, seen, others, then_);
    TraceKeepsSound(identity, seen, others, then_);
    StepKeepsSound(identity, then_, ProtectNew);
    hide Reaches, Sound;
    FoundIsProtected(identity, then_, f, symbol);
    ProtectedStaysUntouched(identity, Next(identity, then_, ProtectNew), events, to, f, symbol);
  }

  lemma FoundIsProtected(identity: Identity, w: World, f: string, symbol: string)
    requires Sound(w) && w.phase.Seen? && w.phase.follower == f && symbol in w.phase.current && w.books.Some?
    requires f in w.books.value.followers
    requires symbol !in w.books.value.followers[f].managed && symbol !in w.books.value.followers[f].suspended
    ensures
      var next := Next(identity, w, ProtectNew);
      && HandsOff(next, f, symbol) && symbol in next.books.value.followers[f].protected
  {
    MembershipExactly(w.books.value, UnmanagedProtected(f, w.phase.current), f, symbol);
    hide Sound;
  }

  /** While only others act, the books and the phase stay as they are. */
  lemma {:induction false} OthersOnlyTrade(identity: Identity, from: World, events: seq<Event>, to: World)
    requires Reaches(identity, from, events, to) && forall event :: event in events ==> event.Outside?
    ensures to.books == from.books && to.phase == from.phase
    decreases |events|
  {
    if events != [] {
      var last := |events| - 1;
      var mid :|
        && Reaches(identity, from, events[..last], mid)
        && Enabled(mid, events[last]) && to == Next(identity, mid, events[last]);
      assert events[last] in events;
      OthersOnlyTrade(identity, from, events[..last], mid);
    }
  }

  /** What is barred because the leader held it is free again as soon as a cycle sees the leader without it. */
  lemma FlatLeaderLiftsBars(identity: Identity, w: World, leader: set<string>, f: string, symbol: string)
    requires Sound(w) && Enabled(w, Begin(leader)) && f in w.open
    ensures !(symbol in leader) ==> !Barred(Next(identity, w, Begin(leader)), f, symbol)
    ensures symbol in leader ==> (Barred(Next(identity, w, Begin(leader)), f, symbol) <==> Barred(w, f, symbol))
  {
    MembershipExactly(w.books.value, LeaderSeen(leader), f, symbol);
  }

  // ----- Start-up as a whole -----

  lemma OneStep(identity: Identity, from: World, events: seq<Event>, w: World, event: Event)
    requires Reaches(identity, from, events, w) && Enabled(w, event)
    ensures Reaches(identity, from, events + [event], Next(identity, w, event))
  {
    hide Enabled, Next;
    var more := events + [event];
    assert more[..|more| - 1] == events && more[|more| - 1] == event;
  }

  /** The books with what was found protected, for some of the followers. */
  function ProtectSome(books: Books, found: map<string, set<string>>, todo: set<string>): Books {
    books.(followers := map f | f in books.followers ::
             if f in todo && f in found then books.followers[f].Protect(found[f]) else books.followers[f])
  }

  lemma ProtectOneThenRest(books: Books, found: map<string, set<string>>, todo: set<string>, f: string)
    requires f in todo && f in found && f in books.followers
    ensures ProtectSome(books, found, todo) == ProtectSome(Apply(books, UnmanagedProtected(f, found[f])), found,
                                                           todo - {f})
  {
    var one := Apply(books, UnmanagedProtected(f, found[f]));
    hide FollowerOwnership.Protect;
    assert ProtectSome(books, found, todo).followers == ProtectSome(one, found, todo - {f}).followers;
  }

  /** Whatever is still to be protected after the books are read, the machine gets to the end of it. */
  lemma {:induction false} ProtectRest(identity: Identity, from: World, events: seq<Event>, books: Books,
                                       open: map<string, set<string>>, found: map<string, set<string>>,
                                       todo: set<string>)
    returns (more: seq<Event>)
    requires Reaches(identity, from, events, World(Some(books), open, Starting(found, todo)))
    requires todo <= found.Keys == books.followers.Keys
    ensures Reaches(identity, from, more, World(Some(ProtectSome(books, found, todo)), open, Idle))
    decreases todo
  {
    hide Reaches, Apply, ProtectSome, Books.ProtectAll;
    var w := World(Some(books), open, Starting(found, todo));
    if todo == {} {
      OneStep(identity, from, events, w, Started);
      more := events + [Started];
      NothingLeftToProtect(books, found);
    } else {
      var f :| f in todo;
      OneStep(identity, from, events, w, ProtectFound(f));
      ProtectOneThenRest(books, found, todo, f);
      SameFollowers(books, UnmanagedProtected(f, found[f]));
      more := ProtectRest(identity, from, events + [ProtectFound(f)], Apply(books, UnmanagedProtected(f, found[f])),
                          open, found, todo - {f});
    }
  }

  lemma NothingLeftToProtect(books: Books, found: map<string, set<string>>)
    ensures ProtectSome(books, found, {}) == books
  {
    assert ProtectSome(books, found, {}).followers == books.followers;
  }

  lemma SameFollowers(books: Books, op: Operation)
    ensures Apply(books, op).followers.Keys == books.followers.Keys
  {}

  lemma BootReads(identity: Identity, books: Option<Books>, open: map<string, set<string>>,
                  leader: set<string>) returns (first: Books)
    requires Sound(World(books, open, Down))
    ensures Opened(identity, OnFile(identity, books), leader, open) == Ok(first) && first.followers.Keys == open.Keys
    ensures Reaches(identity, World(books, open, Down), [Boot(leader)],
                    World(Some(first), open, Starting(open, open.Keys)))
  {
    var down := World(books, open, Down);
    if books.Some? {
      RestartReadsBooks(identity, books.value, leader, open);
    }
    first := Opened(identity, OnFile(identity, books), leader, open).value;
    hide Load, Save, Sound;
    OneStep(identity, down, [], down, Boot(leader));
    assert [] + [Boot(leader)] == [Boot(leader)];
  }

  /** An uninterrupted start-up ends with the books that `Initialize` gives. */
  lemma StartUpReachesIdle(identity: Identity, books: Option<Books>, open: map<string, set<string>>,
                           leader: set<string>)
    returns (events: seq<Event>)
    requires Sound(World(books, open, Down))
    ensures Initialize(identity, OnFile(identity, books), leader, open).Ok?
    ensures
      var after := Initialize(identity, OnFile(identity, books), leader, open).value;
      && Reaches(identity, World(books, open, Down), events, World(Some(after), open, Idle))
      && Sound(World(Some(after), open, Idle))
  {
    hide Opened, OnFile, Sound, Reaches;
    var first := BootReads(identity, books, open, leader);
    assert ProtectSome(first, open, open.Keys) == first.ProtectAll(open) by {
      ProtectSomeIsAll(first, open);
    }
    hide Books.ProtectAll, ProtectSome;
    events := ProtectRest(identity, World(books, open, Down), [Boot(leader)], first, open, open, open.Keys);
    TraceKeepsSound(identity, World(books, open, Down), events, World(Some(first.ProtectAll(open)), open, Idle));
  }

  lemma ProtectSomeIsAll(books: Books, found: map<string, set<string>>)
    requires books.followers.Keys == found.Keys
    ensures ProtectSome(books, found, found.Keys) == books.ProtectAll(found)
  {
    hide FollowerOwnership.Protect;
    assert ProtectSome(books, found, found.Keys).followers == books.ProtectAll(found).followers;
  }

  /** What a state file counts as in the machine: the books it loads to. */
  ghost predicate ReadsAs(identity: Identity, content: Option<StoredState>, books: Option<Books>) {
    match content
    case None => books == None
    case Some(stored) => books.Some? && Load(identity, stored) == Ok(books.value)
  }

  /** A start-up from a file of either version is one from the books it counts as. */
  lemma StartUpFromFile(identity: Identity, content: Option<StoredState>, books: Option<Books>,
                        open: map<string, set<string>>, leader: set<string>)
    returns (events: seq<Event>)
    requires ReadsAs(identity, content, books) && Sound(World(books, open, Down))
    ensures Initialize(identity, content, leader, open).Ok?
    ensures
      var after := Initialize(identity, content, leader, open).value;
      && Reaches(identity, World(books, open, Down), events, World(Some(after), open, Idle))
      && Sound(World(Some(after), open, Idle))
  {
    events := StartUpReachesIdle(identity, books, open, leader);
    if content.Some? {
      FileStartsAsItsBooks(identity, content.value, leader, open);
    }
    hide Load, Initialize, Reaches, Sound;
  }

  /**
    What a start-up must come to: from every sound world that the state file counts as, it succeeds, and the machine
    gets from that world to the books it ends with.
  */
  ghost predicate StartsUp(identity: Identity, content: Option<StoredState>, open: map<string, set<string>>,
                           r: Result<Books, Error>)
  {
    forall books :: ReadsAs(identity, content, books) && Sound(World(books, open, Down)) ==>
      && r.Ok? && Sound(World(Some(r.value), open, Idle))
      && exists events :: Reaches(identity, World(books, open, Down), events, World(Some(r.value), open, Idle))
  }

  lemma EveryStartUp(identity: Identity, content: Option<StoredState>, open: map<string, set<string>>,
                     leader: set<string>)
    ensures StartsUp(identity, content, open, Initialize(identity, content, leader, open))
  {
    hide Initialize, ReadsAs, Sound, Reaches;
    forall books | ReadsAs(identity, content, books) && Sound(World(books, open, Down))
      ensures
        var r := Initialize(identity, content, leader, open);
        && r.Ok? && Sound(World(Some(r.value), open, Idle))
        && exists events :: Reaches(identity, World(books, open, Down), events, World(Some(r.value), open, Idle))
    {
      var events := StartUpFromFile(identity, content, books, open, leader);
    }
  }

  // ----- Migration -----

  /** A file of the older version is a sound beginning exactly if no blocked leader symbol is managed. */
  lemma MigratedBooksAreSound(identity: Identity, stored: StoredState, open: map<string, set<string>>)
    requires Load(identity, stored).Ok? && stored.version == 1
    requires Load(identity, stored).value.followers.Keys == open.Keys
    ensures
      var books := Load(identity, stored).value;
      var apart := forall f :: f in books.followers ==> books.blocked !! books.followers[f].managed;
      Sound(World(Some(books), open, Down)) <==> apart
  {
    LoadedBooks(identity, stored);
    hide Load;
  }

  /** A file of any version starts the program as the books it loads to would. */
  lemma FileStartsAsItsBooks(identity: Identity, stored: StoredState, leader: set<string>,
                             current: map<string, set<string>>)
    requires Load(identity, stored).Ok?
    ensures
      var books := Load(identity, stored).value;
      Initialize(identity, Some(stored), leader, current)
        == Initialize(identity, OnFile(identity, Some(books)), leader, current)
  {
    LoadedBooks(identity, stored);
    SaveLoadRoundTrip(identity, Load(identity, stored).value);
    hide Load, Save;
  }

  /** The symbol is observed for the follower, and no cycle has looked at the follower since. */
  ghost predicate NotYetLooked(w: World, f: string, symbol: string) {
    && w.books.Some? && f in w.books.value.followers && symbol in w.books.value.followers[f].observed
    && (w.phase.Seen? || w.phase.Planning? || w.phase.Trading? || w.phase.Settling? ==> w.phase.follower != f)
  }

  lemma OtherOperationsKeepObserved(books: Books, op: Operation, f: string, symbol: string)
    requires f in books.followers && symbol in books.followers[f].observed
    requires op.LeaderSeen? || op.UnmanagedProtected? || op.follower != f
    ensures f in Apply(books, op).followers && symbol in Apply(books, op).followers[f].observed
  {}

  lemma StepKeepsObserved(identity: Identity, w: World, event: Event, f: string, symbol: string)
    requires Sound(w) && Enabled(w, event) && NotYetLooked(w, f, symbol) && event != Look(f)
    ensures NotYetLooked(Next(identity, w, event), f, symbol)
  {
    hide Apply, Load, Save, FirstStart, Books.Candidates, Books.Partitioned;
    var books := w.books.value;
    match event {
      case Boot(leader) => RestartReadsBooks(identity, books, leader, w.open);
      case ProtectFound(g) => OtherOperationsKeepObserved(books, UnmanagedProtected(g, w.phase.found[g]), f, symbol);
      case Begin(leader) => OtherOperationsKeepObserved(books, LeaderSeen(leader), f, symbol);
      case Look(g) => OtherOperationsKeepObserved(books, FollowerSeen(g, w.open[g], w.phase.leader), f, symbol);
      case ProtectNew =>
        OtherOperationsKeepObserved(books, UnmanagedProtected(w.phase.follower, w.phase.current), f, symbol);
      case Claim(s) => OtherOperationsKeepObserved(books, Claimed(w.phase.follower, s), f, symbol);
      case Mark(s) => OtherOperationsKeepObserved(books, PositionMarked(w.phase.follower, s), f, symbol);
      case Release(s) => OtherOperationsKeepObserved(books, Released(w.phase.follower, s), f, symbol);
      case _ =>
    }
  }

  lemma {:induction false} ObservedUntilLook(identity: Identity, from: World, events: seq<Event>, to: World, f: string,
                                             symbol: string)
    requires Sound(from) && NotYetLooked(from, f, symbol) && Reaches(identity, from, events, to) && Look(f) !in events
    ensures NotYetLooked(to, f, symbol)
    decreases |events|
  {
    hide Sound, Next, Enabled, NotYetLooked;
    if events != [] {
      var last := |events| - 1;
      var mid :|
        && Reaches(identity, from, events[..last], mid)
        && Enabled(mid, events[last]) && to == Next(identity, mid, events[last]);
      ObservedUntilLook(identity, from, events[..last], mid, f, symbol);
      TraceKeepsSound(identity, from, events[..last], mid);
      assert events[last] in events;
      StepKeepsObserved(identity, mid, events[last], f, symbol);
    }
  }

  /**
    A symbol that was managed when the older version stopped, and is missing at the first look while the leader
    holds it, is barred by that look, whatever crashes, starts and outside trades came between.
  */
  lemma MigratedSymbolIsBarred(identity: Identity, stored: StoredState, open: map<string, set<string>>,
                               events: seq<Event>, w: World, f: string, symbol: string)
    requires Load(identity, stored).Ok? && stored.version == 1
    requires Sound(World(Some(Load(identity, stored).value), open, Down))
    requires f in Load(identity, stored).value.followers && symbol in Load(identity, stored).value.followers[f].managed
    requires Reaches(identity, World(Some(Load(identity, stored).value), open, Down), events, w) && Look(f) !in events
    requires Enabled(w, Look(f)) && symbol !in w.open[f] && symbol in w.phase.leader
    ensures
      var next := Next(identity, w, Look(f));
      HandsOff(next, f, symbol) && Barred(next, f, symbol)
  {
    var from := World(Some(Load(identity, stored).value), open, Down);
    LoadedBooks(identity, stored);
    hide Load, Reaches;
    ObservedUntilLook(identity, from, events, w, f, symbol);
    TraceKeepsSound(identity, from, events, w);
    VanishedIsBarred(identity, w, f, symbol);
  }
}
