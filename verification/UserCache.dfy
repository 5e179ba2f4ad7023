/** The user cache in front of the users table: readers that fill it and writers that
    invalidate it run concurrently, guarded by a generation counter or, while no generation
    key exists, by the time of the last invalidation (the tombstone).  One user id is
    modelled; the three Redis keys of different ids never meet. */
module UserCache {
  import opened Basics

  /** Arguments above this bound are timestamps in milliseconds, the others generations. */
  const TIMESTAMP_FLOOR: int := 1_000_000_000_000
  const MAX_FETCH_MS: int := 10_000

  datatype Role = Customer | Staff

  datatype Account = Active | Suspended | Deleted

  datatype User = User(
    email: string, fullName: string, role: Role, status: Account, phone: Option<string>,
    emailVerified: bool, phoneVerified: bool, lastLoginAt: Option<int>, createdAt: int, updatedAt: int,
    passwordHash: Option<string>, avatarUrl: Option<string>, provider: string,
    providerId: Option<string>, deletedAt: Option<int>)

  /** The fields `serializeUser` keeps. */
  datatype Payload = Payload(
    email: string, fullName: string, role: Role, status: Account, phone: Option<string>,
    emailVerified: bool, phoneVerified: bool, lastLoginAt: Option<int>, createdAt: int, updatedAt: int)

  function OrNull(text: Option<string>): Option<string> {
    if text == Some("") then None else text
  }

  function Serialize(u: User): Payload {
    Payload(u.email, u.fullName, u.role, u.status, OrNull(u.phone), u.emailVerified, u.phoneVerified,
            u.lastLoginAt, u.createdAt, u.updatedAt)
  }

  function Revive(p: Payload): User {
    User(p.email, p.fullName, p.role, p.status, OrNull(p.phone), p.emailVerified, p.phoneVerified,
         p.lastLoginAt, p.createdAt, p.updatedAt, None, None, "local", None, None)
  }

  /** A cache hit gives back the row itself exactly when the row has none of what the cached
      form drops; what the cached form keeps always survives. */
  lemma CacheRoundTrip(u: User)
    ensures Serialize(Revive(Serialize(u))) == Serialize(u)
    ensures Revive(Serialize(u)) == u <==>
      && u.passwordHash.None? && u.avatarUrl.None? && u.providerId.None? && u.deletedAt.None?
      && u.provider == "local" && u.phone != Some("")
  {
    var r := Revive(Serialize(u));
    if r == u {
      assert u.phone == OrNull(OrNull(u.phone));
    }
  }

  /** The comparison in SAFE_SET_LUA: may the value be stored, given the compared key and
      the argument? */
  predicate SafeSetAllows(current: Option<int>, arg: int) {
    if arg > TIMESTAMP_FLOOR then !(current.Some? && current.value >= arg)
    else current == Some(arg)
  }

  // ---- The machine

  /** How far a writer's invalidation has come since its row write. */
  datatype Stage = Written | Bumped | Entombed | Finished

  datatype Reader =
    | Started(startedAt: int)
    | KnowsGen(startedAt: int, gen: Option<nat>)
    | Fetched(startedAt: int, gen: Option<nat>, version: nat)
    | Ended

  datatype Entry = Entry(version: nat, payload: Payload)

  /** `versions` is the history of the row, the last element being the row now; the writer
      of version `k + 1` is `writers[k]`.  `Entry.version` records which version a cached
      payload was taken from. */
  datatype State = State(versions: seq<Option<User>>, writers: seq<Stage>, readers: seq<Reader>,
                         cache: Option<Entry>, gen: Option<nat>, tombstone: Option<int>, clock: int)

  datatype Action =
    | Tick(now: int)
    | WriteRow(row: Option<User>)
    | BumpGeneration(writer: nat)
    | SetTombstone(writer: nat)
    | DeleteCached(writer: nat)
    | StartFetch
    | ReadGeneration(reader: nat)
    | FetchRow(reader: nat)
    | Populate(reader: nat)
    | ExpireCache
    | ExpireGeneration
    | ExpireTombstone

  predicate NoFetchInFlight(s: State) {
    forall r :: 0 <= r < |s.readers| ==> s.readers[r].Ended?
  }

  predicate Enabled(s: State, a: Action) {
    match a
    case Tick(now) => now >= s.clock
    case WriteRow(_) => true
    case BumpGeneration(w) => w < |s.writers| && s.writers[w].Written?
    case SetTombstone(w) => w < |s.writers| && s.writers[w].Bumped?
    case DeleteCached(w) => w < |s.writers| && s.writers[w].Entombed?
    case StartFetch => true
    case ReadGeneration(r) => r < |s.readers| && s.readers[r].Started?
    case FetchRow(r) => r < |s.readers| && s.readers[r].KnowsGen? && |s.versions| > 0
    case Populate(r) =>
      && r < |s.readers| && s.readers[r].Fetched? && s.readers[r].version < |s.versions|
      && s.versions[s.readers[r].version].Some?
    case ExpireCache => true
    case ExpireGeneration => NoFetchInFlight(s)
    case ExpireTombstone => NoFetchInFlight(s)
  }

  /** `safeSetUserCache`: the guard a reader must pass to fill the cache. */
  predicate MayPopulate(s: State, startedAt: int, gen: Option<nat>) {
    if gen.Some? then SafeSetAllows(AsInt(s.gen), gen.value)
    else s.clock - startedAt <= MAX_FETCH_MS && SafeSetAllows(s.tombstone, startedAt)
  }

  function AsInt(n: Option<nat>): Option<int> {
    match n case None => None case Some(v) => Some(v)
  }

  function Apply(s: State, a: Action): State {
    if !Enabled(s, a) then s else
    match a
    case Tick(now) => s.(clock := now)
    case WriteRow(row) => s.(versions := s.versions + [row], writers := s.writers + [Written])
    case BumpGeneration(w) =>
      s.(writers := s.writers[w := Bumped],
         gen := Some(match s.gen case None => 1 case Some(g) => g + 1))
    case SetTombstone(w) => s.(writers := s.writers[w := Entombed], tombstone := Some(s.clock))
    case DeleteCached(w) => s.(writers := s.writers[w := Finished], cache := None)
    case StartFetch => s.(readers := s.readers + [Started(s.clock)])
    case ReadGeneration(r) => s.(readers := s.readers[r := KnowsGen(s.readers[r].startedAt, s.gen)])
    case FetchRow(r) =>
      var last := |s.versions| - 1;
      s.(readers := s.readers[r :=
        if s.versions[last].None? then Ended
        else Fetched(s.readers[r].startedAt, s.readers[r].gen, last)])
    case Populate(r) =>
      var reader := s.readers[r];
      var t := s.(readers := s.readers[r := Ended]);
      if MayPopulate(s, reader.startedAt, reader.gen) then
        t.(cache := Some(Entry(reader.version, Serialize(s.versions[reader.version].value))))
      else t
    case ExpireCache => s.(cache := None)
    case ExpireGeneration => s.(gen := None)
    case ExpireTombstone => s.(tombstone := None)
  }

  function Run(s: State, actions: seq<Action>): State
    decreases |actions|
  {
    if actions == [] then s else Run(Apply(s, actions[0]), actions[1..])
  }

  function Start(row: Option<User>, now: int): State {
    State([row], [], [], None, None, None, now)
  }

  /** A reader fills the cache exactly if the generation it read still stands, or, having found
      none, if it took at most ten seconds and no tombstone is as late as its start. */
  lemma PopulateDecides(s: State, r: nat)
    requires Enabled(s, Populate(r)) && s.readers[r].startedAt > 1_000_000_000_000
    requires s.readers[r].gen.Some? ==> s.readers[r].gen.value <= 1_000_000_000_000
    ensures var reader := s.readers[r];
            var allowed := if reader.gen.Some? then s.gen == reader.gen
                         else && s.clock - reader.startedAt <= 10_000
                              && (s.tombstone.None? || s.tombstone.value < reader.startedAt);
            var entry := Entry(reader.version, Serialize(s.versions[reader.version].value));
      Apply(s, Populate(r)) == s.(readers := s.readers[r := Ended], cache := if allowed then Some(entry) else s.cache)
  {
  }

  // ---- Coherence

  /** No writer of a version newer than `version` has got as far as the given stage. */
  ghost predicate NewerBefore(s: State, version: nat, stages: set<Stage>) {
    forall k :: version <= k < |s.writers| ==> s.writers[k] in stages
  }

  ghost predicate ReaderOk(s: State, r: Reader) {
    match r
    case Ended => true
    case Started(at) => TIMESTAMP_FLOOR < at <= s.clock
    case KnowsGen(at, g) => TIMESTAMP_FLOOR < at <= s.clock && GenSeen(s, g)
    case Fetched(at, g, v) =>
      && TIMESTAMP_FLOOR < at <= s.clock && GenSeen(s, g)
      && v < |s.versions| && s.versions[v].Some?
      && (g.Some? && s.gen == g ==> NewerBefore(s, v, {Written}))
      && (g.None? && !(s.tombstone.Some? && s.tombstone.value >= at) ==> NewerBefore(s, v, {Written, Bumped}))
  }

  predicate GenSeen(s: State, g: Option<nat>) {
    g.Some? ==> s.gen.Some? && g.value <= s.gen.value
  }

  ghost predicate CacheOk(s: State) {
    s.cache.Some? ==>
      var e := s.cache.value;
      && e.version < |s.versions| && s.versions[e.version].Some?
      && e.payload == Serialize(s.versions[e.version].value)
      && NewerBefore(s, e.version, {Written, Bumped, Entombed})
  }

  ghost predicate Inv(s: State) {
    && |s.versions| == |s.writers| + 1 && s.clock > TIMESTAMP_FLOOR
    && (forall r :: 0 <= r < |s.readers| ==> ReaderOk(s, s.readers[r]))
    && CacheOk(s)
  }

  lemma WriterStep(s: State, a: Action)
    requires Inv(s) && Enabled(s, a)
    requires a.WriteRow? || a.BumpGeneration? || a.SetTombstone? || a.DeleteCached?
    ensures Inv(Apply(s, a))
  {
    var t := Apply(s, a);
    forall r | 0 <= r < |t.readers| ensures ReaderOk(t, t.readers[r]) {
      assert ReaderOk(s, s.readers[r]);
    }
  }

  lemma ReaderStep(s: State, a: Action)
    requires Inv(s) && Enabled(s, a)
    requires a.StartFetch? || a.ReadGeneration? || a.FetchRow? || a.Populate?
    ensures Inv(Apply(s, a))
  {
    var t := Apply(s, a);
    forall r | 0 <= r < |t.readers| ensures ReaderOk(t, t.readers[r]) {
      if r < |s.readers| {
        assert ReaderOk(s, s.readers[r]);
      }
    }
    if a.Populate? {
      assert ReaderOk(s, s.readers[a.reader]);
    }
  }

  lemma InvStep(s: State, a: Action)
    requires Inv(s)
    ensures Inv(Apply(s, a))
  {
    if !Enabled(s, a) {
      return;
    }
    match a
    case WriteRow(_) => WriterStep(s, a);
    case BumpGeneration(_) => WriterStep(s, a);
    case SetTombstone(_) => WriterStep(s, a);
    case DeleteCached(_) => WriterStep(s, a);
    case StartFetch => ReaderStep(s, a);
    case ReadGeneration(_) => ReaderStep(s, a);
    case FetchRow(_) => ReaderStep(s, a);
    case Populate(_) => ReaderStep(s, a);
    case _ =>
      var t := Apply(s, a);
      forall r | 0 <= r < |t.readers| ensures ReaderOk(t, t.readers[r]) {
        assert ReaderOk(s, s.readers[r]);
      }
  }

  lemma {:induction false} InvRun(s: State, actions: seq<Action>)
    requires Inv(s)
    ensures Inv(Run(s, actions))
    decreases |actions|
  {
    if actions != [] {
      InvStep(s, actions[0]);
      InvRun(Apply(s, actions[0]), actions[1..]);
    }
  }

  /** A cached user is never older than any write whose invalidation has ended. */
  lemma {:induction false} CacheReflectsFinishedWrites(row: Option<User>, now: int, actions: seq<Action>, writer: nat)
    requires now > TIMESTAMP_FLOOR
    ensures var s := Run(Start(row, now), actions);
      s.cache.Some? && writer < |s.writers| && s.writers[writer].Finished? ==> writer < s.cache.value.version
  {
    InvRun(Start(row, now), actions);
  }

  /** In every reachable state in which no writer is between its row write and the end of its
      invalidation, the cached user, if there is one, is the current row -- however many slow
      readers are in flight, and whichever of the two guards they carry. */
  lemma {:induction false} CacheEqualsRow(row: Option<User>, now: int, actions: seq<Action>)
    requires now > TIMESTAMP_FLOOR
    ensures var s := Run(Start(row, now), actions);
      && |s.versions| > 0
      && (s.cache.Some? && (forall w :: 0 <= w < |s.writers| ==> s.writers[w].Finished?) ==>
            && s.versions[|s.versions| - 1].Some?
            && s.cache.value.payload == Serialize(s.versions[|s.versions| - 1].value))
  {
    InvRun(Start(row, now), actions);
    var s := Run(Start(row, now), actions);
    if s.cache.Some? && s.cache.value.version < |s.writers| {
      assert s.writers[s.cache.value.version] in {Written, Bumped, Entombed};
    }
  }

  // ---- The store

  /** `UsersStore` for one user id, each call uninterrupted. */
  class UsersStore {
    var row: Option<User>
    var cached: Option<Payload>
    var gen: Option<nat>
    var tombstone: Option<int>

    ghost predicate Coherent()
      reads this
    {
      cached.Some? ==> row.Some? && cached.value == Serialize(row.value)
    }

    constructor (row: Option<User>)
      ensures this.row == row && cached.None? && gen.None? && tombstone.None?
    {
      this.row, cached, gen, tombstone := row, None, None, None;
    }

    /** Without an expected generation the fetch start time is the argument. */
    method SafeSetUserCache(user: User, startedAt: int, expectedGen: Option<nat>, now: int) returns (stored: bool)
      modifies this`cached
      ensures expectedGen.Some? && expectedGen.value <= 1_000_000_000_000 ==> (stored <==> gen == expectedGen)
      ensures expectedGen.Some? && expectedGen.value > 1_000_000_000_000 ==>
        (stored <==> gen.None? || gen.value < expectedGen.value)
      ensures expectedGen.None? && startedAt > 1_000_000_000_000 ==>
        (stored <==> now - startedAt <= 10_000 && (tombstone.None? || tombstone.value < startedAt))
      ensures expectedGen.None? && startedAt <= 1_000_000_000_000 ==>
        (stored <==> now - startedAt <= 10_000 && tombstone == Some(startedAt))
      ensures cached == if stored then Some(Serialize(user)) else old(cached)
    {
      if expectedGen.None? {
        var elapsed := now - startedAt;
        if elapsed > MAX_FETCH_MS {
          return false;
        }
      }
      var current := if expectedGen.Some? then AsInt(gen) else tombstone;
      var arg: int := if expectedGen.Some? then expectedGen.value else startedAt;
      if arg > TIMESTAMP_FLOOR {
        if current.Some? {
          if current.value >= arg {
            return false;
          }
        }
      } else if current.None? || current.value != arg {
        return false;
      }
      cached := Some(Serialize(user));
      stored := true;
    }

    method InvalidateUserCache(now: int)
      modifies this`cached, this`gen, this`tombstone
      ensures cached.None? && tombstone == Some(now)
      ensures gen == Some((if old(gen).Some? then old(gen).value else 0) + 1)
    {
      gen := Some((if gen.Some? then gen.value else 0) + 1);
      tombstone := Some(now);
      cached := None;
    }

    /** Returns the row, or on a hit what the cached form keeps of it, and fills the cache on a
        miss unless one of the guards' refusals applies. */
    method FindById(skipCache: bool, now: int) returns (user: Option<User>)
      requires Coherent()
      modifies this`cached
      ensures Coherent()
      ensures user.Some? <==> row.Some?
      ensures user.Some? ==> Serialize(user.value) == Serialize(row.value)
      ensures skipCache || old(cached).None? ==> user == row
      ensures skipCache ==> cached == old(cached)
      ensures !skipCache && cached.None? ==> row.None? || (gen.None? && tombstone.Some? && tombstone.value >= now)
                                             || (gen.None? && now <= TIMESTAMP_FLOOR)
                                             || (gen.Some? && gen.value > TIMESTAMP_FLOOR)
    {
      if !skipCache && cached.Some? {
        CacheRoundTrip(row.value);
        return Some(Revive(cached.value));
      }
      var startedAt := now;
      var expectedGen := if skipCache then None else gen;
      user := row;
      if user.None? {
        return;
      }
      if !skipCache {
        var stored := SafeSetUserCache(user.value, startedAt, expectedGen, now);
      }
    }

    method Update(data: User, now: int) returns (found: bool)
      modifies this
      ensures found == old(row).Some?
      ensures row == if found then Some(data) else None
      ensures found ==> cached.None? && gen.Some?
      ensures old(Coherent()) ==> Coherent()
    {
      if row.None? {
        return false;
      }
      row := Some(data);
      InvalidateUserCache(now);
      found := true;
    }

    method Delete(now: int)
      modifies this
      ensures row.None? && cached.None? && gen.Some? && Coherent()
    {
      row := None;
      InvalidateUserCache(now);
    }
  }
}
