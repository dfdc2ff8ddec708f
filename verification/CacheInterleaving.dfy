/**
 * The cached getters of internal/user/service/service.go under concurrency: reads, cache
 * writes and expiry are separate steps, and callers that miss together share one read.
 */
module CacheInterleaving {
  import opened Wrappers
  import opened Tokens
  import opened Repository
  import opened UserService
  import opened SessionProofs
  import opened CacheProofs

  /** What a flight looks up; its key in the singleflight group. */
  datatype Lookup = ById(id: Id) | ByEmail(email: string)

  /** One answer given to a caller of a getter. */
  datatype Answer = Answer(what: Lookup, row: Option<User>)

  /** `asked` remembers every id that some caller has looked up. */
  datatype World = World(
    store: Store,
    cache: CacheState,
    flights: map<Lookup, Option<User>>,
    answers: seq<Answer>,
    asked: set<Id>)

  const QUIET := World(EMPTY, map[], map[], [], {})

  datatype Action =
    | Create(user: User)                 // repo.CreateUser of some Register
    | Read(what: Lookup)                 // a flight's leader reads the repository
    | Write(what: Lookup, byId: bool)    // the leader writes one of the two cache keys
    | Land(what: Lookup)                 // the flight is over
    | Share(what: Lookup)                // the leader, or a caller that joins the flight, gets its result
    | Hit(id: Id)                        // a caller is served from the cache
    | Drop(key: string)                  // expiry, eviction, or Register's Del

  /** Register draws the id by itself and stores a bcrypt hash: nobody can have asked for the id before. */
  predicate Enabled(w: World, a: Action) {
    match a
    case Create(user) => user.id !in w.store.users && user.id !in w.asked && user.passwordHash.Bcrypt?
    case Read(what) => what !in w.flights
    case Write(what, _) => what in w.flights && w.flights[what].Some?
    case Land(what) => what in w.flights
    case Share(what) => what in w.flights
    case Hit(id) => KeyByID(id) in w.cache
    case Drop(_) => true
  }

  /** What the repository says now. */
  function Fresh(st: Store, what: Lookup): Option<User> {
    var r := match what case ById(id) => GetUserByID(st, id) case ByEmail(email) => GetUserByEmail(st, email);
    if r.Success? then Some(r.value) else None
  }

  function Asking(asked: set<Id>, what: Lookup): set<Id> {
    if what.ById? then asked + {what.id} else asked
  }

  function Do(w: World, a: Action): World
    requires Enabled(w, a)
  {
    match a
    case Create(user) => w.(store := CreateUser(w.store, user).0)
    case Read(what) => w.(flights := w.flights[what := Fresh(w.store, what)], asked := Asking(w.asked, what))
    case Write(what, byId) =>
      var view := ToView(w.flights[what].value);
      w.(cache := w.cache[if byId then KeyByID(view.id) else KeyByEmail(view.email) := view])
    case Land(what) => w.(flights := w.flights - {what})
    case Share(what) => w.(answers := w.answers + [Answer(what, w.flights[what])])
    case Hit(id) =>
      w.(answers := w.answers + [Answer(ById(id), Some(ToUserRow(w.cache[KeyByID(id)])))],
         asked := w.asked + {id})
    case Drop(key) => w.(cache := w.cache - {key})
  }

  ghost predicate Schedule(w: World, actions: seq<Action>)
    decreases |actions|
  {
    actions == [] || (Enabled(w, actions[0]) && Schedule(Do(w, actions[0]), actions[1..]))
  }

  function Play(w: World, actions: seq<Action>): World
    requires Schedule(w, actions)
    decreases |actions|
  {
    if actions == [] then w else Play(Do(w, actions[0]), actions[1..])
  }

  // ---------- what every step keeps ----------

  /** A row in flight is the stored row, however old the read. */
  predicate IsRowFor(st: Store, what: Lookup, u: User) {
    && u.id in st.users && st.users[u.id] == u
    && (match what case ById(id) => u.id == id case ByEmail(email) => u.email == email)
  }

  /** A lookup by id that found nothing asked for an id that no user has, nor ever will. */
  predicate MissOk(w: World, what: Lookup) {
    what.ById? ==> what.id in w.asked && what.id !in w.store.users
  }

  predicate FlightOk(w: World, what: Lookup) {
    what in w.flights ==>
      match w.flights[what]
      case Some(u) => IsRowFor(w.store, what, u)
      case None => MissOk(w, what)
  }

  predicate AnswerOk(w: World, a: Answer) {
    match a.row
    case None => MissOk(w, a.what)
    case Some(u) =>
      match a.what
      case ById(id) => id in w.store.users && Project(u) == Project(w.store.users[id])
      case ByEmail(_) => IsRowFor(w.store, a.what, u)
  }

  ghost predicate WorldOk(w: World) {
    && StoreOk(Memory, w.store, 0)
    && CacheOk(w.store, w.cache)
    && (forall what :: FlightOk(w, what))
    && (forall k :: 0 <= k < |w.answers| ==> AnswerOk(w, w.answers[k]))
  }

  /** Flights and answers survive any step that forgets no question and no row. */
  lemma GrowsOk(w: World, w': World)
    requires forall what :: FlightOk(w, what)
    requires forall k :: 0 <= k < |w.answers| ==> AnswerOk(w, w.answers[k])
    requires w'.answers == w.answers && w.asked <= w'.asked
    requires forall what :: what in w'.flights ==> what in w.flights && w'.flights[what] == w.flights[what]
    requires forall id :: id in w.store.users ==> id in w'.store.users && w'.store.users[id] == w.store.users[id]
    requires forall id :: id in w'.store.users && id !in w.store.users ==> id !in w.asked
    ensures forall what :: FlightOk(w', what)
    ensures forall k :: 0 <= k < |w'.answers| ==> AnswerOk(w', w'.answers[k])
  {
    forall what ensures FlightOk(w', what) {
      assert FlightOk(w, what);
    }
    forall k | 0 <= k < |w'.answers| ensures AnswerOk(w', w'.answers[k]) {
      assert AnswerOk(w, w.answers[k]);
    }
  }

  /** A read of the repository just now is right. */
  lemma FreshOk(w: World, what: Lookup)
    requires StoreOk(Memory, w.store, 0)
    ensures match Fresh(w.store, what)
            case Some(u) => IsRowFor(w.store, what, u)
            case None => MissOk(w.(asked := Asking(w.asked, what)), what)
  {
    Lookups(Memory, w.store, 0, if what.ByEmail? then what.email else "", Sha256(Other("")));
    assert what.ById? ==> UserOk(w.store, what.id);
  }

  lemma ReadOk(w: World, what: Lookup)
    requires WorldOk(w) && what !in w.flights
    ensures WorldOk(Do(w, Read(what)))
  {
    FreshOk(w, what);
    var w' := Do(w, Read(what));
    GrowsOk(w, w'.(flights := w.flights));
    forall k ensures FlightOk(w', k) {
      assert FlightOk(w'.(flights := w.flights), k);
    }
    forall k | 0 <= k < |w'.answers| ensures AnswerOk(w', w'.answers[k]) {
      assert AnswerOk(w'.(flights := w.flights), w'.answers[k]);
    }
  }

  lemma AnswerGivenOk(w: World, a: Action)
    requires WorldOk(w) && Enabled(w, a) && (a.Share? || a.Hit?)
    ensures WorldOk(Do(w, a))
  {
    var w' := Do(w, a);
    if a.Share? {
      assert FlightOk(w, a.what);
      assert a.what.ById? && w.flights[a.what].Some? ==> UserOk(w.store, a.what.id);
    } else {
      assert IdEntryOk(w.store, w.cache, a.id);
      assert UserOk(w.store, a.id);
    }
    GrowsOk(w, w'.(answers := w.answers));
    forall what ensures FlightOk(w', what) {
      assert FlightOk(w'.(answers := w.answers), what);
    }
    forall k | 0 <= k < |w'.answers| ensures AnswerOk(w', w'.answers[k]) {
      assert k < |w.answers| ==> AnswerOk(w'.(answers := w.answers), w.answers[k]);
    }
  }

  lemma DoOk(w: World, a: Action)
    requires WorldOk(w) && Enabled(w, a)
    ensures WorldOk(Do(w, a))
  {
    match a
    case Create(user) =>
      CreateUserOk(Memory, w.store, user, 0);
      CreateKeepsCacheOk(w.store, w.cache, user, 0, Memory);
      GrowsOk(w, Do(w, a));
    case Read(what) => ReadOk(w, what);
    case Write(what, _) =>
      assert FlightOk(w, what);
      RememberOk(w.store, w.cache, Cached(false, true, false, false, {}), w.flights[what].value, 0, Memory);
      GrowsOk(w, Do(w, a));
    case Land(_) => GrowsOk(w, Do(w, a));
    case Share(_) => AnswerGivenOk(w, a);
    case Hit(_) => AnswerGivenOk(w, a);
    case Drop(key) =>
      FewerEntriesOk(w.store, w.cache, {key});
      GrowsOk(w, Do(w, a));
  }

  lemma {:induction false} PlayOk(w: World, actions: seq<Action>)
    requires WorldOk(w) && Schedule(w, actions)
    ensures WorldOk(Play(w, actions))
    decreases |actions|
  {
    if actions != [] {
      DoOk(w, actions[0]);
      PlayOk(Do(w, actions[0]), actions[1..]);
    }
  }

  // ---------- what callers are told ----------

  /**
   * Under every interleaving, a row handed to a caller shows the id, email and
   * username of the stored row of the user asked for; by email it is that row.
   */
  lemma EveryAnswerIsTheStoredRow(actions: seq<Action>, k: nat)
    requires Schedule(QUIET, actions) && k < |Play(QUIET, actions).answers|
    requires Play(QUIET, actions).answers[k].row.Some?
    ensures var w := Play(QUIET, actions);
            var row := w.answers[k].row.value;
            match w.answers[k].what
            case ById(id) => id in w.store.users && Project(row) == Project(w.store.users[id])
            case ByEmail(email) => row.email == email && GetUserByEmail(w.store, email) == Success(row)
  {
    PlayOk(QUIET, actions);
    var w := Play(QUIET, actions);
    assert AnswerOk(w, w.answers[k]);
    if w.answers[k].what.ByEmail? {
      assert UserOk(w.store, w.answers[k].row.value.id);
    }
  }

  /** By id "not found" is always right: no user has that id then or ever after. */
  lemma NoFalseMissById(actions: seq<Action>, k: nat)
    requires Schedule(QUIET, actions) && k < |Play(QUIET, actions).answers|
    requires Play(QUIET, actions).answers[k].what.ById? && Play(QUIET, actions).answers[k].row.None?
    ensures Play(QUIET, actions).answers[k].what.id !in Play(QUIET, actions).store.users
  {
    PlayOk(QUIET, actions);
    assert AnswerOk(Play(QUIET, actions), Play(QUIET, actions).answers[k]);
  }

  /** Some creation among the actions is for this email. */
  ghost predicate Registers(actions: seq<Action>, email: string) {
    exists k :: 0 <= k < |actions| && actions[k].Create? && actions[k].user.email == email
  }

  /** While a flight stays in the air its result stands, and the email is taken exactly if it was or a creation came. */
  lemma {:induction false} FlightStands(w: World, what: Lookup, mid: seq<Action>, email: string)
    requires WorldOk(w) && Schedule(w, mid) && what in w.flights && Land(what) !in mid
    ensures var w' := Play(w, mid);
            && what in w'.flights && w'.flights[what] == w.flights[what]
            && (email in w'.store.byEmail <==> email in w.store.byEmail || Registers(mid, email))
    decreases |mid|
  {
    if mid != [] {
      var w1 := Do(w, mid[0]);
      assert mid[0] != Land(what);
      DoOk(w, mid[0]);
      FlightStands(w1, what, mid[1..], email);
      if Registers(mid[1..], email) {
        var k :| 0 <= k < |mid[1..]| && mid[1..][k].Create? && mid[1..][k].user.email == email;
        assert mid[k + 1] == mid[1..][k];
      }
      if Registers(mid, email) && !(mid[0].Create? && mid[0].user.email == email) {
        var k :| 0 <= k < |mid| && mid[k].Create? && mid[k].user.email == email;
        assert mid[1..][k - 1] == mid[k];
      }
    }
  }

  /**
   * When a shared result is out of date: a caller that shares a flight is told what
   * the repository would say now, except exactly when it is told that an email is
   * unknown and a registration of that email came after the flight's read.
   */
  lemma MissIsStaleExactly(pre: seq<Action>, what: Lookup, mid: seq<Action>)
    requires Schedule(QUIET, pre) && Enabled(Play(QUIET, pre), Read(what))
    requires var w := Do(Play(QUIET, pre), Read(what)); Schedule(w, mid) && Land(what) !in mid
    ensures var w := Do(Play(QUIET, pre), Read(what));
            var now := Play(w, mid);
            && Enabled(now, Share(what))
            && Do(now, Share(what)).answers == now.answers + [Answer(what, w.flights[what])]
            && (w.flights[what] != Fresh(now.store, what)
                <==> what.ByEmail? && w.flights[what].None? && Registers(mid, what.email))
  {
    PlayOk(QUIET, pre);
    DoOk(Play(QUIET, pre), Read(what));
    var w := Do(Play(QUIET, pre), Read(what));
    var now := Play(w, mid);
    PlayOk(w, mid);
    FlightStands(w, what, mid, if what.ByEmail? then what.email else "");
    assert FlightOk(now, what) && FlightOk(w, what);
    if what.ByEmail? {
      assert EmailOk(now.store, what.email) && EmailOk(w.store, what.email);
      if w.flights[what].Some? {
        assert UserOk(now.store, w.flights[what].value.id);
      }
    }
  }

  /**
   * It does happen: a registration finds the email free through the flight of a
   * lookup, stores the user, and a login that joins the same flight is told that
   * there is no such user.
   */
  lemma SharedMissCanBeStale(u: User)
    requires u.passwordHash.Bcrypt?
    ensures var read := [Read(ByEmail(u.email)), Share(ByEmail(u.email)), Create(u), Share(ByEmail(u.email))];
            && Schedule(QUIET, read)
            && GetUserByEmail(Play(QUIET, read).store, u.email) == Success(u)
            && Play(QUIET, read).answers == [Answer(ByEmail(u.email), None), Answer(ByEmail(u.email), None)]
  {
    var a := [Read(ByEmail(u.email)), Share(ByEmail(u.email)), Create(u), Share(ByEmail(u.email))];
    var w1 := Do(QUIET, a[0]);
    var w2 := Do(w1, a[1]);
    var w3 := Do(w2, a[2]);
    var w4 := Do(w3, a[3]);
    assert a[1..][0] == a[1] && a[2..][0] == a[2] && a[3..][0] == a[3];
    assert a[1..][1..] == a[2..] && a[2..][1..] == a[3..] && a[3..][1..] == [];
    assert Schedule(w4, []) && Play(w4, []) == w4;
    assert Schedule(w3, a[3..]) && Play(w3, a[3..]) == w4;
    assert Schedule(w2, a[2..]) && Play(w2, a[2..]) == w4;
    assert Schedule(w1, a[1..]) && Play(w1, a[1..]) == w4;
  }
}
