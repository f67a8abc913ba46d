/**
 * The Flask variant of the service (app/server.py): a user table, a table of
 * desktop sessions (one container each), admission capped at MaxUsers, and
 * the sweep that drops sessions idle for more than ten minutes. Both tables
 * are sequences in row-id order; the Docker SDK, the free-port socket and
 * the clock are parameters.
 */
module SessionApp {
  import opened Wrappers

  const MaxUsers: nat := 50
  /** Ten minutes, in microseconds (the resolution of `datetime`). */
  const InactiveTimeoutUs: int := 600 * 1000000
  /** How many sessions the index page lists. */
  const ShownSessions: nat := 6
  const UserExistsError: string := "User exists"
  const InvalidCredentialsError: string := "Invalid credentials"

  datatype User = User(id: nat, username: string, password: string)

  /** A session row; `lastActive` is set when the row is inserted and never updated. */
  datatype Session = Session(userId: nat, containerId: string, port: int, lastActive: int)

  /** What removing an expired session's container did. */
  datatype Removal =
    | Removed            // the container was found and force-removed
    | ContainerNotFound  // docker.errors.NotFound, which is ignored
    | DockerError        // any other exception, which propagates

  /** `now - last_active > timedelta(seconds=600)`. */
  predicate Expired(s: Session, now: int)
    ensures Expired(s, now) ==> s.lastActive < now
  {
    now - s.lastActive > InactiveTimeoutUs
  }

  /** A session that has expired stays expired at every later instant. */
  lemma ExpiredPersists(s: Session, now: int, later: int)
    requires now <= later && Expired(s, now)
    ensures Expired(s, later)
  {
  }

  /** The sessions a sweep at `now` keeps, in their order. */
  function KeepActive(sessions: seq<Session>, now: int): (kept: seq<Session>)
    ensures |kept| <= |sessions|
    ensures forall k | 0 <= k < |kept| :: kept[k] in sessions && !Expired(kept[k], now)
    ensures forall k | 0 <= k < |sessions| && !Expired(sessions[k], now) :: sessions[k] in kept
    decreases |sessions|
  {
    if sessions == [] then []
    else
      var last := sessions[|sessions| - 1];
      KeepActive(sessions[..|sessions| - 1], now) + (if Expired(last, now) then [] else [last])
  }

  /** A sweep over sessions none of which has expired keeps them all. */
  lemma {:induction false} KeepActiveAllActive(sessions: seq<Session>, now: int)
    requires forall i | 0 <= i < |sessions| :: !Expired(sessions[i], now)
    ensures KeepActive(sessions, now) == sessions
    decreases |sessions|
  {
    if sessions != [] {
      var prefix := sessions[..|sessions| - 1];
      KeepActiveAllActive(prefix, now);
      assert prefix + [sessions[|sessions| - 1]] == sessions;
    }
  }

  /** A second sweep at the same instant keeps everything the first one kept. */
  lemma KeepActiveIdempotent(sessions: seq<Session>, now: int)
    ensures KeepActive(KeepActive(sessions, now), now) == KeepActive(sessions, now)
  {
    var kept := KeepActive(sessions, now);
    forall i | 0 <= i < |kept| ensures !Expired(kept[i], now) {
      assert kept[i] in kept;
    }
    KeepActiveAllActive(kept, now);
  }

  /** No user holds two sessions. */
  predicate OnePerUser(sessions: seq<Session>) {
    forall i, j | 0 <= i < j < |sessions| :: sessions[i].userId != sessions[j].userId
  }

  /** Dropping sessions keeps every user at one session at most. */
  lemma {:induction false} KeepActiveOnePerUser(sessions: seq<Session>, now: int)
    requires OnePerUser(sessions)
    ensures OnePerUser(KeepActive(sessions, now))
    decreases |sessions|
  {
    if sessions != [] {
      var prefix := sessions[..|sessions| - 1];
      var last := sessions[|sessions| - 1];
      KeepActiveOnePerUser(prefix, now);
      var kept := KeepActive(prefix, now);
      forall s | s in kept ensures s.userId != last.userId {
        var k :| 0 <= k < |prefix| && prefix[k] == s;
        assert sessions[k] == s;
      }
    }
  }

  /** Whether one of the sessions belongs to the user. */
  predicate HasSession(sessions: seq<Session>, userId: nat) {
    exists i | 0 <= i < |sessions| :: sessions[i].userId == userId
  }

  /** Some expired session's container removal raised something other than NotFound. */
  predicate SweepFails(sessions: seq<Session>, now: int, removal: string -> Removal) {
    exists i | 0 <= i < |sessions| :: Expired(sessions[i], now) && removal(sessions[i].containerId).DockerError?
  }

  /**
   * The loop of `cleanup_inactive`: visit the sessions in order, removing the
   * container of each expired one (a missing container is fine) and dropping
   * its row. An error from Docker aborts before the commit, so it yields None
   * and no row is dropped.
   */
  method SweepInactive(sessions: seq<Session>, now: int, removal: string -> Removal)
    returns (kept: Option<seq<Session>>)
    ensures kept.None? <==> SweepFails(sessions, now, removal)
    ensures kept.Some? ==> kept.value == KeepActive(sessions, now)
  {
    var remaining := [];
    var i := 0;
    while i < |sessions|
      invariant 0 <= i <= |sessions|
      invariant remaining == KeepActive(sessions[..i], now)
      invariant forall j | 0 <= j < i :: !(Expired(sessions[j], now) && removal(sessions[j].containerId).DockerError?)
    {
      var sess := sessions[i];
      assert sessions[..i + 1][..i] == sessions[..i];
      if Expired(sess, now) {
        if removal(sess.containerId).DockerError? {
          return None;
        }
      } else {
        remaining := remaining + [sess];
      }
      i := i + 1;
    }
    assert sessions[..i] == sessions;
    return Some(remaining);
  }

  /** `User.query.filter_by(username=…).first()`: the position of the first user with that name. */
  function FindByUsername(users: seq<User>, username: string): (k: Option<nat>)
    ensures k.Some? ==> k.value < |users| && users[k.value].username == username
    ensures k.Some? ==> forall j | 0 <= j < k.value :: users[j].username != username
    ensures k.None? ==> forall j | 0 <= j < |users| :: users[j].username != username
    decreases |users|
  {
    if users == [] then None
    else if users[0].username == username then Some(0)
    else
      match FindByUsername(users[1..], username)
      case Some(k) => Some(k + 1)
      case None => None
  }

  /** `User.query.filter_by(username=…, password=…).first()`. */
  function FindByCredentials(users: seq<User>, username: string, password: string): (k: Option<nat>)
    ensures k.Some? ==> k.value < |users| && users[k.value].username == username && users[k.value].password == password
    ensures k.None? ==> forall j | 0 <= j < |users| :: !(users[j].username == username && users[j].password == password)
    decreases |users|
  {
    if users == [] then None
    else if users[0].username == username && users[0].password == password then Some(0)
    else
      match FindByCredentials(users[1..], username, password)
      case Some(k) => Some(k + 1)
      case None => None
  }

  /** The first `ShownSessions` sessions, or all when there are fewer. */
  function FirstShown(sessions: seq<Session>): (shown: seq<Session>)
    ensures |shown| <= ShownSessions && |shown| <= |sessions|
    ensures shown == sessions[..|shown|]
    ensures |sessions| <= ShownSessions ==> shown == sessions
  {
    if |sessions| <= ShownSessions then sessions else sessions[..ShownSessions]
  }

  /**
   * Row ids of users are 1, 2, …; usernames are unique; at most MaxUsers
   * sessions, at most one per user, each belonging to an existing user.
   */
  ghost predicate Tables(users: seq<User>, sessions: seq<Session>) {
    && (forall i | 0 <= i < |users| :: users[i].id == i + 1)
    && (forall i, j | 0 <= i < j < |users| :: users[i].username != users[j].username)
    && |sessions| <= MaxUsers
    && OnePerUser(sessions)
    && (forall k | 0 <= k < |sessions| :: 1 <= sessions[k].userId <= |users|)
  }

  /** Admitting an existing user who holds no session, below the cap, keeps the tables consistent. */
  lemma AdmissionKeepsTables(users: seq<User>, sessions: seq<Session>, s: Session)
    requires Tables(users, sessions)
    requires 1 <= s.userId <= |users| && !HasSession(sessions, s.userId) && |sessions| < MaxUsers
    ensures Tables(users, sessions + [s])
  {
    var after := sessions + [s];
    forall i, j | 0 <= i < j < |after| ensures after[i].userId != after[j].userId {
      if j == |sessions| {
        assert after[i] == sessions[i];
      }
    }
  }

  /** What `containers.run` did. */
  datatype StartOutcome = Started(containerId: string) | StartFailed

  /** The response of the index route. */
  datatype Page = RedirectToLogin | ServerError | Rendered(shown: seq<Session>, selfId: nat)

  class SessionApp {
    /** Users in row-id order; rows are never deleted. */
    var users: seq<User>
    /** Sessions in row-id order. */
    var sessions: seq<Session>

    ghost predicate Valid()
      reads this
    {
      Tables(users, sessions)
    }

    constructor ()
      ensures Valid() && users == [] && sessions == []
    {
      users := [];
      sessions := [];
    }

    /**
     * `cleanup_inactive`: drop every session idle for more than ten minutes
     * and keep the rest, or, when Docker raised something other than
     * NotFound, change nothing and report the failure.
     */
    method CleanupInactive(now: int, removal: string -> Removal) returns (ok: bool)
      requires Valid()
      modifies this
      ensures Valid()
      ensures ok <==> !SweepFails(old(sessions), now, removal)
      ensures sessions == if ok then KeepActive(old(sessions), now) else old(sessions)
      ensures users == old(users)
    {
      var kept := SweepInactive(sessions, now, removal);
      if kept.None? {
        return false;
      }
      KeepActiveOnePerUser(sessions, now);
      sessions := kept.value;
      return true;
    }

    /**
     * `start_container`: run a container publishing `freePort` and add a
     * session row for the user, active from `now`. When the run raises, no
     * row is added.
     */
    method StartContainer(userId: nat, freePort: int, now: int, start: StartOutcome) returns (ok: bool)
      requires Valid()
      requires 1 <= userId <= |users| && !HasSession(sessions, userId) && |sessions| < MaxUsers
      modifies this
      ensures Valid()
      ensures ok <==> start.Started?
      ensures sessions == if ok then old(sessions) + [Session(userId, start.containerId, freePort, now)]
                          else old(sessions)
      ensures users == old(users)
    {
      match start
      case StartFailed =>
        return false;
      case Started(containerId) =>
        AdmissionKeepsTables(users, sessions, Session(userId, containerId, freePort, now));
        sessions := sessions + [Session(userId, containerId, freePort, now)];
        return true;
    }

    /**
     * GET /: without a logged-in user, redirect. Otherwise sweep; then, if
     * the user has no session and fewer than MaxUsers remain, start a
     * container on `freePort` and add a session for it; then list the first
     * sessions. A Docker error in the sweep, an unknown user id or a failed
     * start is an internal error.
     */
    method Index(loggedIn: Option<nat>, now: int, removal: string -> Removal, freePort: int, start: StartOutcome)
      returns (page: Page)
      requires Valid()
      modifies this
      ensures Valid()
      ensures users == old(users)
      ensures loggedIn.None? ==> page == RedirectToLogin && sessions == old(sessions)
      ensures loggedIn.Some? && SweepFails(old(sessions), now, removal) ==>
                page == ServerError && sessions == old(sessions)
      ensures loggedIn.Some? && !SweepFails(old(sessions), now, removal) && !(1 <= loggedIn.value <= |users|) ==>
                page == ServerError && sessions == KeepActive(old(sessions), now)
      ensures loggedIn.Some? && !SweepFails(old(sessions), now, removal) && 1 <= loggedIn.value <= |users| ==>
                var kept := KeepActive(old(sessions), now);
                var admitted := !HasSession(kept, loggedIn.value) && |kept| < MaxUsers;
                && (!admitted ==> sessions == kept && page == Rendered(FirstShown(kept), loggedIn.value))
                && (admitted && start.StartFailed? ==> sessions == kept && page == ServerError)
                && (admitted && start.Started? ==>
                      && sessions == kept + [Session(loggedIn.value, start.containerId, freePort, now)]
                      && page == Rendered(FirstShown(sessions), loggedIn.value))
    {
      if loggedIn.None? {
        return RedirectToLogin;
      }
      var ok := CleanupInactive(now, removal);
      if !ok {
        return ServerError;
      }
      page := AdmitAndRender(loggedIn.value, freePort, now, start);
    }

    /**
     * The part of GET / after the sweep: look the user up (an unknown id is an
     * internal error), start a container when the user has no session and
     * fewer than MaxUsers exist, and list the first sessions.
     */
    method AdmitAndRender(userId: nat, freePort: int, now: int, start: StartOutcome) returns (page: Page)
      requires Valid()
      modifies this
      ensures Valid()
      ensures users == old(users)
      ensures !(1 <= userId <= |users|) ==> page == ServerError && sessions == old(sessions)
      ensures 1 <= userId <= |users| && !(!HasSession(old(sessions), userId) && |old(sessions)| < MaxUsers) ==>
                sessions == old(sessions) && page == Rendered(FirstShown(sessions), userId)
      ensures 1 <= userId <= |users| && !HasSession(old(sessions), userId) && |old(sessions)| < MaxUsers ==>
                && (start.StartFailed? ==> sessions == old(sessions) && page == ServerError)
                && (start.Started? ==>
                      && sessions == old(sessions) + [Session(userId, start.containerId, freePort, now)]
                      && page == Rendered(FirstShown(sessions), userId))
    {
      if !(1 <= userId <= |users|) {
        return ServerError;
      }
      var user := users[userId - 1];
      assert user.id == userId;
      if !HasSession(sessions, user.id) && |sessions| < MaxUsers {
        var started := StartContainer(user.id, freePort, now, start);
        if !started {
          return ServerError;
        }
      }
      page := Rendered(FirstShown(sessions), user.id);
    }

    /**
     * POST /register: an existing username is refused with nothing added;
     * otherwise the user is appended with the next row id, which becomes the
     * logged-in user.
     */
    method Register(username: string, password: string) returns (r: Result<nat, string>)
      requires Valid()
      modifies this
      ensures Valid()
      ensures r.Failure? <==> exists i | 0 <= i < |old(users)| :: old(users)[i].username == username
      ensures r.Failure? ==> r.error == UserExistsError && users == old(users)
      ensures r.Success? ==> r.value == |old(users)| + 1 && users == old(users) + [User(r.value, username, password)]
      ensures sessions == old(sessions)
    {
      if FindByUsername(users, username).Some? {
        return Failure(UserExistsError);
      }
      var user := User(|users| + 1, username, password);
      users := users + [user];
      r := Success(user.id);
    }

    /** POST /login: the id of the user with exactly these credentials, who becomes the logged-in user. */
    function Login(username: string, password: string): (r: Result<nat, string>)
      reads this
      requires Valid()
      ensures r.Success? <==> exists i | 0 <= i < |users| :: users[i].username == username && users[i].password == password
      ensures r.Success? ==> 1 <= r.value <= |users| && users[r.value - 1].username == username
                             && users[r.value - 1].password == password
      ensures r.Failure? ==> r.error == InvalidCredentialsError
    {
      match FindByCredentials(users, username, password)
      case Some(k) => Success(users[k].id)
      case None => Failure(InvalidCredentialsError)
    }
  }
}
