/**
  Symbol ownership of a follower account and its state file (perpmirror/monitoring/ownership.py).

  The functions on `FollowerOwnership` and `Books` say what each operation makes of the books. Class
  `PositionOwnership` does the same to its fields and keeps the state file in step.
*/
module Ownership {
  import opened Wrappers

  datatype FollowerOwnership = FollowerOwnership(
    protected: set<string>,
    managed: set<string>,
    observed: set<string>,
    suspended: set<string>)
  {
    /** What the loader insists on: three disjoint sets, and only managed symbols are observed. */
    predicate Disjoint() {
      protected !! managed && suspended !! protected && suspended !! managed && observed <= managed
    }

    function Resume(leader: set<string>): FollowerOwnership {
      this.(suspended := suspended * leader)
    }

    /** Managed symbols seen for the first time, and observed ones that vanished while the leader holds them. */
    function NewlyObserved(current: set<string>): set<string> {
      managed * current - observed
    }

    function Vanished(current: set<string>, leader: set<string>): set<string> {
      (observed - current) * leader
    }

    function Observe(current: set<string>, leader: set<string>): FollowerOwnership {
      var gone := Vanished(current, leader);
      FollowerOwnership(protected, managed - gone, observed + NewlyObserved(current) - gone, suspended + gone)
    }

    function Mark(symbol: string): FollowerOwnership {
      if symbol in managed then this.(observed := observed + {symbol}) else this
    }

    function Discovered(current: set<string>): set<string> {
      current - managed - protected - suspended
    }

    function Protect(current: set<string>): FollowerOwnership {
      this.(protected := protected + Discovered(current))
    }

    function Claim(symbol: string): FollowerOwnership {
      this.(managed := managed + {symbol})
    }

    function Release(symbol: string): FollowerOwnership {
      if symbol in managed then this.(managed := managed - {symbol}, observed := observed - {symbol}) else this
    }
  }

  datatype Books = Books(blocked: set<string>, followers: map<string, FollowerOwnership>) {
    /** Every symbol has one owner, and a blocked leader symbol is neither managed nor suspended anywhere. */
    ghost predicate Partitioned() {
      forall f :: f in followers ==>
        followers[f].Disjoint() && blocked !! followers[f].managed && blocked !! followers[f].suspended
    }

    function ObserveLeader(leader: set<string>): Books {
      Books(blocked * leader, map f | f in followers :: followers[f].Resume(leader))
    }

    function With(f: string, own: FollowerOwnership): Books {
      this.(followers := followers[f := own])
    }

    function Candidates(f: string, leader: set<string>): set<string>
      requires f in followers
    {
      var own := followers[f];
      own.managed + (leader - blocked - own.protected - own.suspended)
    }

    function ProtectAll(current: map<string, set<string>>): Books {
      this.(followers := map f | f in followers ::
              if f in current then followers[f].Protect(current[f]) else followers[f])
    }
  }

  function FirstStart(leader: set<string>, current: map<string, set<string>>): Books {
    Books(leader, map f | f in current :: FollowerOwnership(current[f], {}, {}, {}))
  }

  // ----- The state file -----

  const STATE_VERSION := 2

  datatype Identity = Identity(leaderId: string, leaderExchange: string, followers: map<string, string>)

  /** A field that is missing or not an array of strings is `None`. */
  datatype StoredFollower = StoredFollower(
    protected: Option<set<string>>,
    managed: Option<set<string>>,
    observed: Option<set<string>>,
    suspended: Option<set<string>>)

  datatype StoredState =
    | Unreadable
    | Stored(version: int, identity: Identity, blocked: Option<set<string>>, followers: Option<map<string,
             StoredFollower>>)

  datatype Error = ConfigurationError | NotInitialized | UnsafeClaim

  function SaveFollower(own: FollowerOwnership): StoredFollower {
    StoredFollower(Some(own.protected), Some(own.managed), Some(own.observed), Some(own.suspended))
  }

  function Save(identity: Identity, books: Books): StoredState {
    Stored(STATE_VERSION, identity, Some(books.blocked),
           Some(map f | f in books.followers :: SaveFollower(books.followers[f])))
  }

  /** Version 1 had no observed and suspended symbols: what was managed counts as observed. */
  function LoadFollower(version: int, stored: StoredFollower): Option<FollowerOwnership> {
    if stored.protected.None? || stored.managed.None? then None
    else if version != 1 && (stored.observed.None? || stored.suspended.None?) then None
    else
      var own := FollowerOwnership(stored.protected.value, stored.managed.value,
                                   if version == 1 then stored.managed.value else stored.observed.value,
                                   if version == 1 then {} else stored.suspended.value);
      if own.Disjoint() then Some(own) else None
  }

  function Load(identity: Identity, stored: StoredState): Result<Books, Error> {
    if stored.Unreadable? || stored.version !in {1, STATE_VERSION} then Err(ConfigurationError)
    else if stored.identity != identity || stored.blocked.None? || stored.followers.None? then Err(ConfigurationError)
    else if exists f :: f in stored.followers.value &&
                       LoadFollower(stored.version, stored.followers.value[f]).None? then
      Err(ConfigurationError)
    else
      Ok(Books(stored.blocked.value,
               map f | f in stored.followers.value :: LoadFollower(stored.version, stored.followers.value[f]).value))
  }

  /** The books a start-up begins with: the first start registers what it finds, a restart reads what was stored. */
  function Opened(identity: Identity, content: Option<StoredState>, leader: set<string>,
                  current: map<string, set<string>>)
    : Result<Books, Error>
  {
    match if content.None? then Ok(FirstStart(leader, current)) else Load(identity, content.value)
    case Err(error) => Err(error)
    case Ok(books) => if books.followers.Keys != current.Keys then Err(ConfigurationError) else Ok(books)
  }

  /** The books after start-up: what nobody owns by then is protected. */
  function Initialize(identity: Identity, content: Option<StoredState>, leader: set<string>,
                      current: map<string, set<string>>)
    : Result<Books, Error>
  {
    match Opened(identity, content, leader, current)
    case Err(error) => Err(error)
    case Ok(books) => Ok(books.ProtectAll(current))
  }

  // ----- Round trip and migration -----

  /** What is saved loads again, unchanged, exactly if every follower's sets are disjoint. */
  lemma SaveLoadRoundTrip(identity: Identity, books: Books)
    ensures (forall f :: f in books.followers ==> books.followers[f].Disjoint())
      <==> Load(identity, Save(identity, books)) == Ok(books)
    ensures !(forall f :: f in books.followers ==> books.followers[f].Disjoint())
      <==> Load(identity, Save(identity, books)) == Err(ConfigurationError)
  {
    var stored := Save(identity, books);
    forall f | f in books.followers
      ensures LoadFollower(STATE_VERSION, stored.followers.value[f]) ==
          if books.followers[f].Disjoint() then Some(books.followers[f]) else None
    {}
    if forall f :: f in books.followers ==> books.followers[f].Disjoint() {
      var loaded := map f | f in stored.followers.value :: LoadFollower(STATE_VERSION, stored.followers.value[f]).value;
      assert loaded == books.followers;
    } else {
      var f :| f in books.followers && !books.followers[f].Disjoint();
      assert f in stored.followers.value && LoadFollower(STATE_VERSION, stored.followers.value[f]).None?;
    }
  }

  /** A loadable file of the current version is what saving the loaded books writes. */
  lemma LoadSaveRoundTrip(identity: Identity, stored: StoredState)
    requires Load(identity, stored).Ok? && stored.version == STATE_VERSION
    ensures Save(identity, Load(identity, stored).value) == stored
  {
    var books := Load(identity, stored).value;
    assert forall f :: f in stored.followers.value ==> SaveFollower(books.followers[f]) == stored.followers.value[f];
    assert Save(identity, books).followers.value == stored.followers.value;
  }

  /** A follower's entry is readable: its sets are there and apart; version 1 had no observed and suspended symbols. */
  predicate Readable(version: int, stored: StoredFollower) {
    && stored.protected.Some? && stored.managed.Some? && stored.protected.value !! stored.managed.value
    && (version != 1 ==>
          && stored.observed.Some? && stored.suspended.Some?
          && stored.suspended.value !! stored.protected.value && stored.suspended.value !! stored.managed.value
          && stored.observed.value <= stored.managed.value)
  }

  /** A file loads exactly if it is readable, of a known version and of these accounts. */
  lemma LoadsExactly(identity: Identity, stored: StoredState)
    ensures Load(identity, stored).Ok? <==>
      && stored.Stored? && (stored.version == 1 || stored.version == 2) && stored.identity == identity
      && stored.blocked.Some? && stored.followers.Some?
      && forall f :: f in stored.followers.value ==> Readable(stored.version, stored.followers.value[f])
  {
    if stored.Stored? && stored.followers.Some? {
      forall f | f in stored.followers.value
        ensures LoadFollower(stored.version, stored.followers.value[f]).Some?
           <==> Readable(stored.version, stored.followers.value[f])
      {}
    }
    hide LoadFollower, Readable;
  }

  /**
    What loads is what is on file, with disjoint sets; a version 1 file counts its managed symbols as observed and
    suspends none.
  */
  lemma LoadedBooks(identity: Identity, stored: StoredState)
    requires Load(identity, stored).Ok?
    ensures
      var books := Load(identity, stored).value;
      && Some(books.blocked) == stored.blocked
      && stored.followers.Some? && books.followers.Keys == stored.followers.value.Keys
      && forall f :: f in books.followers ==>
           var own, entry := books.followers[f], stored.followers.value[f];
           && own.Disjoint()
           && Some(own.protected) == entry.protected && Some(own.managed) == entry.managed
           && if stored.version == 1 then own.observed == own.managed && own.suspended == {}
              else Some(own.observed) == entry.observed && Some(own.suspended) == entry.suspended
  {
    var books := Load(identity, stored).value;
    forall f | f in books.followers
      ensures LoadFollower(stored.version, stored.followers.value[f]) == Some(books.followers[f])
    {}
  }

  // ----- Operations -----

  /** The public mutators. */
  datatype Operation =
    | LeaderSeen(leader: set<string>)
    | FollowerSeen(follower: string, current: set<string>, leader: set<string>)
    | PositionMarked(follower: string, symbol: string)
    | UnmanagedProtected(follower: string, current: set<string>)
    | Claimed(follower: string, symbol: string)
    | Released(follower: string, symbol: string)

  /** The three guards of `claim`. */
  predicate Claimable(books: Books, f: string, symbol: string)
    requires f in books.followers
  {
    symbol !in books.followers[f].protected && symbol !in books.followers[f].suspended && symbol !in books.blocked
  }

  /** An operation on an unknown follower, or a claim that a guard stops, raises and changes nothing. */
  function Apply(books: Books, op: Operation): Books {
    if op.LeaderSeen? then books.ObserveLeader(op.leader)
    else if op.follower !in books.followers then books
    else
      var own := books.followers[op.follower];
      match op
      case FollowerSeen(f, current, leader) => books.With(f, own.Observe(current, leader))
      case PositionMarked(f, symbol) => books.With(f, own.Mark(symbol))
      case UnmanagedProtected(f, current) => books.With(f, own.Protect(current))
      case Claimed(f, symbol) => if Claimable(books, f, symbol) then books.With(f, own.Claim(symbol)) else books
      case Released(f, symbol) => books.With(f, own.Release(symbol))
  }

  /** An observed symbol that is gone while the leader holds it. */
  predicate Vanishes(own: FollowerOwnership, current: set<string>, leader: set<string>, s: string) {
    s in own.observed && s !in current && s in leader
  }

  /**
    Every way in which a symbol gets into one of a follower's sets, or out of it. An operation on another follower
    changes none of them.
  */
  lemma MembershipExactly(books: Books, op: Operation, f: string, s: string)
    requires f in books.followers
    ensures
      var after := Apply(books, op);
      var own := books.followers[f];
      var mine := !op.LeaderSeen? && op.follower == f;
      var vanishes := mine && op.FollowerSeen? && Vanishes(own, op.current, op.leader, s);
      var released := mine && op.Released? && s == op.symbol && s in own.managed;
      var free := s !in own.protected && s !in own.suspended && s !in books.blocked;
      && f in after.followers
      && var next := after.followers[f];
      && (s in after.blocked <==> s in books.blocked && (op.LeaderSeen? ==> s in op.leader))
      && (s in next.protected <==>
            || s in own.protected
            || (mine && op.UnmanagedProtected? && s in op.current && s !in own.managed && s !in own.suspended))
      && (s in next.managed <==>
            (s in own.managed || (mine && op.Claimed? && s == op.symbol && free)) && !vanishes && !released)
      && (s in next.suspended <==> (s in own.suspended && (op.LeaderSeen? ==> s in op.leader)) || vanishes)
      && (s in next.observed <==>
            && !vanishes && !released
            && (|| s in own.observed
                || (mine && s in own.managed && op.FollowerSeen? && s in op.current)
                || (mine && s in own.managed && op.PositionMarked? && s == op.symbol)))
  {}

  /** Once protection is done, everything that is open is accounted for. */
  lemma OpenSymbolsAreAccountedFor(books: Books, f: string, current: set<string>)
    requires f in books.followers
    ensures
      var after := Apply(books, UnmanagedProtected(f, current));
      && f in after.followers
      && var own := after.followers[f];
      && own.protected
           == books.followers[f].protected + (current - books.followers[f].managed - books.followers[f].suspended)
      && current <= own.managed + own.protected + own.suspended
  {
    forall s
      ensures s in Apply(books, UnmanagedProtected(f, current)).followers[f].protected <==>
          || s in books.followers[f].protected
          || (s in current && s !in books.followers[f].managed && s !in books.followers[f].suspended)
    {
      MembershipExactly(books, UnmanagedProtected(f, current), f, s);
    }
  }

  function ApplyAll(books: Books, ops: seq<Operation>): Books
    decreases |ops|
  {
    if ops == [] then books else Apply(ApplyAll(books, ops[..|ops| - 1]), ops[|ops| - 1])
  }

  /** Protected symbols are only added, blocked leader symbols only removed, and no follower comes or goes. */
  ghost predicate Grows(books: Books, after: Books) {
    && after.followers.Keys == books.followers.Keys
    && after.blocked <= books.blocked
    && forall f :: f in books.followers ==> books.followers[f].protected <= after.followers[f].protected
  }

  lemma WithKeepsPartition(books: Books, f: string, own: FollowerOwnership)
    requires books.Partitioned() && f in books.followers
    requires own.Disjoint() && books.blocked !! own.managed && books.blocked !! own.suspended
    requires books.followers[f].protected <= own.protected
    ensures books.With(f, own).Partitioned() && Grows(books, books.With(f, own))
  {}

  /** Each operation keeps the partition. */
  lemma OperationKeepsPartition(books: Books, op: Operation)
    requires books.Partitioned()
    ensures Apply(books, op).Partitioned() && Grows(books, Apply(books, op))
  {
    if !op.LeaderSeen? && op.follower in books.followers {
      var own := books.followers[op.follower];
      assert own.Disjoint();
      if !op.Claimed? || Claimable(books, op.follower, op.symbol) {
        var next := Apply(books, op).followers[op.follower];
        assert next.Disjoint() && books.blocked !! next.managed && books.blocked !! next.suspended;
        WithKeepsPartition(books, op.follower, next);
      }
    }
  }

  /** So does every sequence of operations, from the first start on. */
  lemma {:induction false} OperationsKeepPartition(leader: set<string>, current: map<string, set<string>>,
                                                   ops: seq<Operation>)
    ensures
      var start := FirstStart(leader, current);
      ApplyAll(start, ops).Partitioned() && Grows(start, ApplyAll(start, ops))
    decreases |ops|
  {
    if ops != [] {
      OperationsKeepPartition(leader, current, ops[..|ops| - 1]);
      OperationKeepsPartition(ApplyAll(FirstStart(leader, current), ops[..|ops| - 1]), ops[|ops| - 1]);
    }
  }

  /** Without its guards a claim would break the partition: they are exactly what keeps it. */
  lemma ClaimGuardsAreExact(books: Books, f: string, symbol: string)
    requires books.Partitioned() && f in books.followers && symbol !in books.followers[f].managed
    ensures books.With(f, books.followers[f].Claim(symbol)).Partitioned() <==> Claimable(books, f, symbol)
  {
    var after := books.With(f, books.followers[f].Claim(symbol));
    var own := after.followers[f];
    if Claimable(books, f, symbol) {
      assert own.Disjoint();
    } else {
      assert symbol in own.managed;
      assert
        || symbol in own.protected * own.managed || symbol in own.suspended * own.managed
        || symbol in after.blocked * own.managed;
    }
  }

  /** A candidate that is not managed yet is held by the leader and passes all three claim guards. */
  lemma CandidatesAreClaimable(books: Books, f: string, leader: set<string>, symbol: string)
    requires books.Partitioned() && f in books.followers && symbol in books.Candidates(f, leader)
    ensures Claimable(books, f, symbol)
    ensures symbol !in books.followers[f].managed ==> symbol in leader
  {}

  /**
    The books after start-up. The first start blocks what the leader holds and protects what a follower holds; a
    restart keeps what was stored and protects what it finds in no set. Nothing open is left without an owner.
  */
  lemma StartUpExactly(identity: Identity, content: Option<StoredState>, leader: set<string>,
                       current: map<string, set<string>>)
    requires Initialize(identity, content, leader, current).Ok?
    ensures
      var books := Initialize(identity, content, leader, current).value;
      && books.followers.Keys == current.Keys
      && (content.None? ==> books.blocked == leader)
      && (content.Some? ==>
            && Load(identity, content.value).Ok?
            && Load(identity, content.value).value.followers.Keys == current.Keys
            && books.blocked == Load(identity, content.value).value.blocked)
      && forall f :: f in current ==>
           var own := books.followers[f];
           && current[f] <= own.managed + own.protected + own.suspended
           && match content
              case None => own == FollowerOwnership(current[f], {}, {}, {})
              case Some(stored) =>
                var kept := Load(identity, stored).value.followers[f];
                && own.managed == kept.managed && own.observed == kept.observed && own.suspended == kept.suspended
                && own.protected == kept.protected + (current[f] - kept.managed - kept.suspended)
  {
    hide Load;
    if content.None? {
      forall f | f in current
        ensures FollowerOwnership(current[f], {}, {}, {}).Protect(current[f]) ==
            FollowerOwnership(current[f], {}, {}, {})
      {}
    }
  }

  // ----- The class -----

  class StateFile {
    var content: Option<StoredState>

    constructor (content: Option<StoredState>)
      ensures this.content == content
    {
      this.content := content;
    }
  }

  class PositionOwnership {
    const file: StateFile
    const identity: Identity
    const persistChanges: bool
    var blockedLeaderSymbols: set<string>
    var followers: map<string, FollowerOwnership>
    var initialized: bool
    var loadedVersion: int

    constructor (file: StateFile, identity: Identity, persistChanges: bool)
      ensures this.file == file && this.identity == identity && this.persistChanges == persistChanges
      ensures !initialized && Memory() == Books({}, map[])
    {
      this.file, this.identity, this.persistChanges := file, identity, persistChanges;
      blockedLeaderSymbols, followers, initialized, loadedVersion := {}, map[], false, STATE_VERSION;
    }

    function Memory(): Books
      reads this
    {
      Books(blockedLeaderSymbols, followers)
    }

    /** In live mode the file holds exactly what is in memory. */
    ghost predicate Durable()
      reads this, file
    {
      persistChanges && initialized ==> file.content == Some(Save(identity, Memory()))
    }

    method SaveState()
      modifies file
      ensures file.content == if persistChanges then Some(Save(identity, Memory())) else old(file.content)
    {
      if persistChanges {
        file.content := Some(Save(identity, Memory()));
      }
    }

    /** Puts new books in place and writes them out if they differ. */
    method Store(f: string, own: FollowerOwnership)
      requires initialized && Durable() && f in followers
      modifies this`followers, file
      ensures Memory() == old(Memory()).With(f, own)
      ensures Durable() && (!persistChanges ==> file.content == old(file.content))
    {
      if own != followers[f] {
        followers := followers[f := own];
        SaveState();
      }
      assert old(followers)[f := own] == followers;
    }

    method ObserveLeader(current: set<string>) returns (r: Result<set<string>, Error>)
      requires Durable()
      modifies this`blockedLeaderSymbols, this`followers, file
      ensures Durable() && (!persistChanges ==> file.content == old(file.content))
      ensures !initialized ==>
        r == Err(NotInitialized) && Memory() == old(Memory()) && file.content == old(file.content)
      ensures initialized ==>
        r == Ok(old(blockedLeaderSymbols) - current) && Memory() == Apply(old(Memory()), LeaderSeen(current))
    {
      if !initialized {
        return Err(NotInitialized);
      }
      var released := blockedLeaderSymbols - current;
      blockedLeaderSymbols := blockedLeaderSymbols - released;
      var resumed := ResumeFollowers(current);
      if released != {} || resumed {
        SaveState();
      } else {
        assert blockedLeaderSymbols == old(blockedLeaderSymbols);
      }
      assert blockedLeaderSymbols == old(blockedLeaderSymbols) * current;
      return Ok(released);
    }

    /** Lifts the suspension of symbols the leader no longer holds; says whether there was any. */
    method ResumeFollowers(current: set<string>) returns (resumed: bool)
      modifies this`followers
      ensures followers == old(Memory()).ObserveLeader(current).followers
      ensures !resumed ==> followers == old(followers)
    {
      resumed := false;
      var rest := followers.Keys;
      while rest != {}
        invariant rest <= followers.Keys == old(followers.Keys)
        invariant forall f :: f in followers ==>
          followers[f] == if f in rest then old(followers)[f] else old(followers)[f].Resume(current)
        invariant !resumed ==> followers == old(followers)
        decreases |rest|
      {
        var f :| f in rest;
        rest := rest - {f};
        var lifted := followers[f].suspended - current;
        assert followers[f].suspended * current == followers[f].suspended - lifted;
        if lifted != {} {
          followers := followers[f := followers[f].(suspended := followers[f].suspended - lifted)];
          resumed := true;
        }
      }
    }

    method ObserveFollowerPositions(f: string, current: set<string>,
                                    leader: set<string>) returns (r: Result<set<string>, Error>)
      requires Durable()
      modifies this`followers, file
      ensures Durable() && (!persistChanges ==> file.content == old(file.content))
      ensures !initialized ==>
        r == Err(NotInitialized) && Memory() == old(Memory()) && file.content == old(file.content)
      ensures initialized ==> Memory() == Apply(old(Memory()), FollowerSeen(f, current, leader))
      ensures initialized ==>
        r == if f in old(followers) then Ok(old(followers)[f].Vanished(current, leader)) else Err(ConfigurationError)
    {
      if !initialized {
        return Err(NotInitialized);
      }
      if f !in followers {
        return Err(ConfigurationError);
      }
      var gone := followers[f].Vanished(current, leader);
      Store(f, followers[f].Observe(current, leader));
      return Ok(gone);
    }

    method MarkPositionObserved(f: string, symbol: string) returns (r: Result<(), Error>)
      requires Durable()
      modifies this`followers, file
      ensures Durable() && (!persistChanges ==> file.content == old(file.content))
      ensures !initialized ==>
        r == Err(NotInitialized) && Memory() == old(Memory()) && file.content == old(file.content)
      ensures initialized ==> Memory() == Apply(old(Memory()), PositionMarked(f, symbol))
      ensures initialized ==> r == if f in old(followers) then Ok(()) else Err(ConfigurationError)
    {
      if !initialized {
        return Err(NotInitialized);
      }
      if f !in followers {
        return Err(ConfigurationError);
      }
      Store(f, followers[f].Mark(symbol));
      return Ok(());
    }

    method ProtectUnmanaged(f: string, current: set<string>) returns (r: Result<set<string>, Error>)
      requires Durable()
      modifies this`followers, file
      ensures Durable() && (!persistChanges ==> file.content == old(file.content))
      ensures !initialized ==>
        r == Err(NotInitialized) && Memory() == old(Memory()) && file.content == old(file.content)
      ensures initialized ==> Memory() == Apply(old(Memory()), UnmanagedProtected(f, current))
      ensures initialized ==>
        r == if f in old(followers) then Ok(old(followers)[f].Discovered(current)) else Err(ConfigurationError)
      ensures initialized && f in old(followers) ==>
        var own := old(followers)[f];
        && f in followers && followers[f].protected == own.protected + (current - own.managed - own.suspended)
        && r == Ok(followers[f].protected - own.protected)
    {
      if !initialized {
        return Err(NotInitialized);
      }
      if f !in followers {
        return Err(ConfigurationError);
      }
      var discovered := followers[f].Discovered(current);
      OpenSymbolsAreAccountedFor(Memory(), f, current);
      assert discovered == followers[f].Protect(current).protected - followers[f].protected;
      Store(f, followers[f].Protect(current));
      return Ok(discovered);
    }

    method ClaimSymbol(f: string, symbol: string) returns (r: Result<(), Error>)
      requires Durable()
      modifies this`followers, file
      ensures Durable() && (!persistChanges ==> file.content == old(file.content))
      ensures !initialized ==>
        r == Err(NotInitialized) && Memory() == old(Memory()) && file.content == old(file.content)
      ensures initialized ==> Memory() == Apply(old(Memory()), Claimed(f, symbol))
      ensures initialized ==>
        r == if f !in old(followers) then Err(ConfigurationError)
             else if Claimable(old(Memory()), f, symbol) then Ok(()) else Err(UnsafeClaim)
    {
      if !initialized {
        return Err(NotInitialized);
      }
      if f !in followers {
        return Err(ConfigurationError);
      }
      if symbol in followers[f].protected || symbol in followers[f].suspended || symbol in blockedLeaderSymbols {
        return Err(UnsafeClaim);
      }
      Store(f, followers[f].Claim(symbol));
      return Ok(());
    }

    method ReleaseSymbol(f: string, symbol: string) returns (r: Result<(), Error>)
      requires Durable()
      modifies this`followers, file
      ensures Durable() && (!persistChanges ==> file.content == old(file.content))
      ensures !initialized ==>
        r == Err(NotInitialized) && Memory() == old(Memory()) && file.content == old(file.content)
      ensures initialized ==> Memory() == Apply(old(Memory()), Released(f, symbol))
      ensures initialized ==> r == if f in old(followers) then Ok(()) else Err(ConfigurationError)
    {
      if !initialized {
        return Err(NotInitialized);
      }
      if f !in followers {
        return Err(ConfigurationError);
      }
      Store(f, followers[f].Release(symbol));
      return Ok(());
    }

    /** `_load`. */
    method LoadState(stored: StoredState) returns (r: Result<(), Error>)
      modifies this`blockedLeaderSymbols, this`followers, this`loadedVersion
      ensures
        match Load(identity, stored)
        case Ok(books) => r == Ok(()) && Memory() == books && loadedVersion == stored.version
        case Err(error) => r == Err(error) && Memory() == old(Memory())
    {
      var loaded := Load(identity, stored);
      if loaded.Err? {
        return Err(loaded.error);
      }
      blockedLeaderSymbols, followers, loadedVersion := loaded.value.blocked, loaded.value.followers, stored.version;
      return Ok(());
    }

    method ProtectEach(current: map<string, set<string>>)
      requires initialized && Durable() && followers.Keys == current.Keys
      modifies this`followers, file
      ensures Durable() && (!persistChanges ==> file.content == old(file.content))
      ensures Memory() == old(Memory()).ProtectAll(current)
    {
      hide Save, FollowerOwnership.Protect, FollowerOwnership.Discovered, FollowerOwnership.Observe;
      hide FollowerOwnership.Claim;
      var rest := current.Keys;
      while rest != {}
        invariant Durable() && (!persistChanges ==> file.content == old(file.content))
        invariant rest <= current.Keys == followers.Keys
        invariant forall f :: f in followers ==>
          followers[f] == if f in rest then old(followers)[f] else old(followers)[f].Protect(current[f])
        decreases |rest|
      {
        var f :| f in rest;
        rest := rest - {f};
        var discovered := ProtectUnmanaged(f, current[f]);
      }
      assert followers == old(Memory()).ProtectAll(current).followers;
    }

    /** Start-up: the first start writes a file, a restart reads it; either way the file ends up holding the books. */
    method Start(leader: set<string>, current: map<string, set<string>>) returns (r: Result<(), Error>)
      requires Durable()
      modifies this, file
      ensures Durable() && (!persistChanges ==> file.content == old(file.content))
      ensures old(initialized) ==>
        r == Ok(()) && initialized && Memory() == old(Memory()) && file.content == old(file.content)
      ensures !old(initialized) ==>
        match Initialize(identity, old(file.content), leader, current)
        case Ok(books) => r == Ok(()) && initialized && Memory() == books
        case Err(error) => r == Err(error) && !initialized
    {
      if initialized {
        return Ok(());
      }
      if file.content.Some? {
        var stored := file.content.value;
        var loaded := LoadState(stored);
        if loaded.Err? {
          return loaded;
        }
        if stored.version == STATE_VERSION {
          LoadSaveRoundTrip(identity, stored);
        }
      } else {
        blockedLeaderSymbols := leader;
        followers := map f | f in current :: FollowerOwnership(current[f], {}, {}, {});
        loadedVersion := STATE_VERSION;
        SaveState();
      }
      hide Load, Save, Books.ProtectAll;
      if followers.Keys != current.Keys {
        return Err(ConfigurationError);
      }
      initialized := true;
      if loadedVersion < STATE_VERSION {
        SaveState();
        loadedVersion := STATE_VERSION;
      }
      ProtectEach(current);
      return Ok(());
    }
  }
}
