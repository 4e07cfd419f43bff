/** AuthSessionRepository of app/db/auth_sessions.py and its caller _get_local_session_user
    (app/core/auth.py), on one clock: how long a session is accepted. */
module AuthSessions {
  import opened Wrappers

  type Time = int
  type Token = nat       // the stored hash of a token
  type SessionId = nat
  type UserId = nat

  /** Session timeouts, fixed while a session lives. */
  datatype Settings = Settings(idle: Time, absolute: Time, touch: Time)

  datatype Session = Session(
    id: SessionId, user: UserId, createdAt: Time, lastSeenAt: Time, idleExpiresAt: Time, absoluteExpiresAt: Time,
    revokedAt: Option<Time>)

  /** The AuthSession rows by token hash, and the users with status `active`. */
  datatype Db = Db(sessions: map<Token, Session>, active: set<UserId>, users: set<UserId>)

  function Min(a: Time, b: Time): Time { if a < b then a else b }

  // ---- The queries ----

  /** GET_SESSION_QUERY without its join. */
  predicate Unexpired(s: Session, absolute: Time, now: Time) {
    && s.revokedAt.None? && s.idleExpiresAt > now && s.absoluteExpiresAt > now && s.createdAt + absolute > now
  }

  predicate Found(db: Db, token: Token, absolute: Time, now: Time) {
    token in db.sessions && db.sessions[token].user in db.users && Unexpired(db.sessions[token], absolute, now)
  }

  /** TOUCH_SESSION_QUERY on one row. */
  function Touched(s: Session, now: Time, idle: Time, touchAfter: Time): Session {
    if s.revokedAt.None? && s.lastSeenAt < touchAfter && s.absoluteExpiresAt > now
    then s.(lastSeenAt := now, idleExpiresAt := Min(now + idle, s.absoluteExpiresAt)) else s
  }

  function Revoked(s: Session, hit: bool, now: Time): Session {
    if hit && s.revokedAt.None? then s.(revokedAt := Some(now)) else s
  }

  predicate HitsUser(s: Session, user: UserId, except: Option<SessionId>) {
    s.user == user && (except.None? || s.id != except.value)
  }

  function NewSession(id: SessionId, user: UserId, settings: Settings, now: Time): Session {
    Session(id, user, now, now, now + settings.idle, now + settings.absolute, None)
  }

  // ---- The repository ----

  class AuthSessionRepository {
    var sessions: map<Token, Session>
    var active: set<UserId>
    var users: set<UserId>

    function Contents(): Db
      reads this
    {
      Db(sessions, active, users)
    }

    constructor (db: Db)
      ensures Contents() == db
    {
      sessions, active, users := db.sessions, db.active, db.users;
    }

    /** create(): only for an active user; `id` and `token` are new. */
    method Create(id: SessionId, token: Token, user: UserId, settings: Settings, now: Time) returns (r: Option<Session>)
      requires token !in sessions
      modifies this`sessions
      ensures r == if user in active && user in users then Some(NewSession(id, user, settings, now)) else None
      ensures sessions == if r.Some? then old(sessions)[token := r.value] else old(sessions)
    {
      if user !in active || user !in users { return None; }
      var s := Session(id, user, now, now, now + settings.idle, now + settings.absolute, None);
      sessions := sessions[token := s];
      return Some(s);
    }

    /** get_active(): the record and whether its user is active. */
    method GetActive(token: Token, absolute: Time, now: Time) returns (r: Option<(Session, bool)>)
      ensures r.Some? <==> Found(Contents(), token, absolute, now)
      ensures r.Some? ==> r.value == (sessions[token], sessions[token].user in active)
    {
      if token !in sessions { return None; }
      var s := sessions[token];
      if s.user !in users || s.revokedAt.Some? || s.idleExpiresAt <= now || s.absoluteExpiresAt <= now
         || s.createdAt + absolute <= now {
        return None;
      }
      return Some((s, s.user in active));
    }

    method Touch(token: Token, idle: Time, touchAfter: Time, now: Time)
      modifies this`sessions
      ensures sessions ==
        if token in old(sessions) then old(sessions)[token := Touched(old(sessions)[token], now, idle, touchAfter)]
        else old(sessions)
    {
      if token in sessions {
        var s := sessions[token];
        if s.revokedAt.None? && s.lastSeenAt < touchAfter && s.absoluteExpiresAt > now {
          var expires := now + idle;
          if s.absoluteExpiresAt < expires { expires := s.absoluteExpiresAt; }
          sessions := sessions[token := s.(lastSeenAt := now, idleExpiresAt := expires)];
        }
      }
    }

    /** touch_if_due(), for the record just read. */
    method TouchIfDue(token: Token, settings: Settings, now: Time) returns (due: bool)
      requires token in sessions
      modifies this`sessions
      ensures due <==> old(sessions)[token].lastSeenAt < now - settings.touch
      ensures sessions == old(sessions)[token := Touched(old(sessions)[token], now, settings.idle, now - settings.touch)]
    {
      var touchAfter := now - settings.touch;
      if sessions[token].lastSeenAt >= touchAfter { return false; }
      Touch(token, settings.idle, touchAfter, now);
      return true;
    }

    method Revoke(id: SessionId, now: Time)
      modifies this`sessions
      ensures sessions == map token | token in old(sessions) :: Revoked(old(sessions)[token], old(sessions)[token].id == id, now)
    {
      sessions := map token | token in sessions ::
        if sessions[token].id == id && sessions[token].revokedAt.None? then sessions[token].(revokedAt := Some(now))
        else sessions[token];
    }

    method RevokeUserSessions(user: UserId, except: Option<SessionId>, now: Time)
      modifies this`sessions
      ensures sessions ==
        map token | token in old(sessions) :: Revoked(old(sessions)[token], HitsUser(old(sessions)[token], user, except), now)
    {
      sessions := map token | token in sessions ::
        if sessions[token].user == user && sessions[token].revokedAt.None?
           && (except.None? || sessions[token].id != except.value)
        then sessions[token].(revokedAt := Some(now)) else sessions[token];
    }

    /** _get_local_session_user: accepts an unexpired session of an active user, and touches it if due. */
    method Authenticate(token: Token, settings: Settings, now: Time) returns (user: Option<UserId>)
      modifies this`sessions
      ensures user.Some? <==> Accepts(old(Contents()), settings, token, now)
      ensures user.Some? ==> user.value == old(sessions)[token].user
      ensures Contents() == Served(old(Contents()), settings, token, now)
    {
      var record := GetActive(token, settings.absolute, now);
      if record.None? || !record.value.1 { return None; }
      user := Some(sessions[token].user);
      var _ := TouchIfDue(token, settings, now);
    }
  }

  // ---- Runs ----

  predicate Accepts(db: Db, settings: Settings, token: Token, now: Time) {
    Found(db, token, settings.absolute, now) && db.sessions[token].user in db.active
  }

  function Served(db: Db, settings: Settings, token: Token, now: Time): Db {
    if Accepts(db, settings, token, now) then
      db.(sessions := db.sessions[token := Touched(db.sessions[token], now, settings.idle, now - settings.touch)])
    else db
  }

  datatype Action =
    | Login(id: SessionId, token: Token, user: UserId)
    | Request(token: Token)
    | Revoke(id: SessionId)
    | RevokeUser(user: UserId, except: Option<SessionId>)
    | SetActive(user: UserId, active: bool)

  datatype Event = Event(time: Time, action: Action)

  function Next(db: Db, settings: Settings, e: Event): Db {
    match e.action
    case Login(id, token, user) =>
      if token in db.sessions || user !in db.active || user !in db.users then db
      else db.(sessions := db.sessions[token := NewSession(id, user, settings, e.time)])
    case Request(token) => Served(db, settings, token, e.time)
    case Revoke(id) =>
      db.(sessions := map token | token in db.sessions :: Revoked(db.sessions[token], db.sessions[token].id == id, e.time))
    case RevokeUser(user, except) =>
      db.(sessions := map token | token in db.sessions ::
            Revoked(db.sessions[token], HitsUser(db.sessions[token], user, except), e.time))
    case SetActive(user, active) =>
      db.(active := if active then db.active + {user} else db.active - {user})
  }

  /** The state before the n-th event. */
  function After(db: Db, settings: Settings, events: seq<Event>, n: nat): Db
    requires n <= |events|
  {
    if n == 0 then db else Next(After(db, settings, events, n - 1), settings, events[n - 1])
  }

  predicate AcceptsAt(db: Db, settings: Settings, events: seq<Event>, n: nat, token: Token)
    requires n < |events|
  {
    events[n].action == Request(token) && Accepts(After(db, settings, events, n), settings, token, events[n].time)
  }

  predicate Clock(from: Time, events: seq<Event>) {
    && (forall i :: 0 <= i < |events| ==> from <= events[i].time)
    && (forall i, j :: 0 <= i < j < |events| ==> events[i].time <= events[j].time)
  }

  // ---- What a session keeps ----

  /** Identity and absolute expiry never change, and a revocation stays. */
  predicate SameSession(s: Session, s': Session) {
    && s'.id == s.id && s'.user == s.user && s'.createdAt == s.createdAt && s'.absoluteExpiresAt == s.absoluteExpiresAt
    && (s.revokedAt.Some? ==> s'.revokedAt == s.revokedAt)
  }

  lemma {:induction false} RunKeepsSession(db: Db, settings: Settings, events: seq<Event>, n: nat, token: Token)
    requires token in db.sessions && n <= |events|
    ensures var db' := After(db, settings, events, n);
            token in db'.sessions && SameSession(db.sessions[token], db'.sessions[token])
  {
    if n > 0 {
      RunKeepsSession(db, settings, events, n - 1, token);
    }
  }

  /** A revoked session is never accepted again, whatever happens. */
  lemma RevocationIsPermanent(db: Db, settings: Settings, events: seq<Event>, n: nat, token: Token)
    requires token in db.sessions && db.sessions[token].revokedAt.Some? && n < |events|
    ensures !AcceptsAt(db, settings, events, n, token)
  {
    RunKeepsSession(db, settings, events, n, token);
  }

  /** Revoking a user's sessions revokes all of them but the excepted one, for good, and leaves that one and the
      sessions of others as they are. */
  lemma RevokeUserIsExact(db: Db, settings: Settings, now: Time, user: UserId, except: Option<SessionId>,
                          token: Token, later: seq<Event>, n: nat)
    requires token in db.sessions && n < |later|
    ensures var s, db' := db.sessions[token], Next(db, settings, Event(now, RevokeUser(user, except)));
            if s.user == user && except != Some(s.id)
            then token in db'.sessions && db'.sessions[token].revokedAt.Some? && !AcceptsAt(db', settings, later, n, token)
            else token in db'.sessions && db'.sessions[token] == s
                 && forall time: Time :: Accepts(db', settings, token, time) <==> Accepts(db, settings, token, time)
  {
    hide After;
    var db' := Next(db, settings, Event(now, RevokeUser(user, except)));
    if db'.sessions[token].revokedAt.Some? { RevocationIsPermanent(db', settings, later, n, token); }
  }

  /** Revoking one session, by its id, touches no other. */
  lemma RevokeIsExact(db: Db, settings: Settings, now: Time, id: SessionId, token: Token, later: seq<Event>, n: nat)
    requires token in db.sessions && n < |later|
    ensures var s, db' := db.sessions[token], Next(db, settings, Event(now, Action.Revoke(id)));
            if s.id == id
            then token in db'.sessions && db'.sessions[token].revokedAt.Some? && !AcceptsAt(db', settings, later, n, token)
            else token in db'.sessions && db'.sessions[token] == s
                 && forall time: Time :: Accepts(db', settings, token, time) <==> Accepts(db, settings, token, time)
  {
    hide After;
    var db' := Next(db, settings, Event(now, Action.Revoke(id)));
    if db'.sessions[token].revokedAt.Some? { RevocationIsPermanent(db', settings, later, n, token); }
  }

  /** No session is accepted at or after its creation plus the absolute timeout. */
  lemma AbsoluteExpiryHolds(db: Db, settings: Settings, events: seq<Event>, n: nat, token: Token)
    requires token in db.sessions && n < |events|
    requires events[n].time >= db.sessions[token].createdAt + settings.absolute
    ensures !AcceptsAt(db, settings, events, n, token)
  {
    RunKeepsSession(db, settings, events, n, token);
  }

  /** Whether a user is active before the n-th event: as set last, or as at the start. */
  function ActiveBefore(events: seq<Event>, n: nat, user: UserId, initially: bool): bool
    requires n <= |events|
  {
    if n == 0 then initially
    else
      var action := events[n - 1].action;
      if action.SetActive? && action.user == user then action.active else ActiveBefore(events, n - 1, user, initially)
  }

  /** Whether a user is active is decided by the last change of that user alone, and only active users' sessions
      are accepted. */
  lemma {:induction false} InactiveIsRejected(db: Db, settings: Settings, events: seq<Event>, n: nat, token: Token,
                                              user: UserId)
    requires n <= |events|
    ensures user in After(db, settings, events, n).active <==> ActiveBefore(events, n, user, user in db.active)
    ensures n < |events| && token in db.sessions && db.sessions[token].user == user
              && AcceptsAt(db, settings, events, n, token)
            ==> ActiveBefore(events, n, user, user in db.active)
  {
    if n > 0 { InactiveIsRejected(db, settings, events, n - 1, token, user); }
    if token in db.sessions { RunKeepsSession(db, settings, events, n, token); }
  }

  // ---- Idle expiry ----

  /** The session was last used at or before `last`. */
  predicate UsedUpTo(s: Session, settings: Settings, last: Time) {
    s.lastSeenAt <= last && s.idleExpiresAt <= s.lastSeenAt + settings.idle
  }

  /** The time of the last accepted request before the n-th event, or `last` if there is none. */
  function LastUse(db: Db, settings: Settings, events: seq<Event>, n: nat, token: Token, last: Time): Time
    requires n <= |events|
  {
    if n == 0 then last
    else if AcceptsAt(db, settings, events, n - 1, token) then events[n - 1].time
    else LastUse(db, settings, events, n - 1, token, last)
  }

  lemma {:induction false} LastUseBefore(db: Db, settings: Settings, events: seq<Event>, n: nat, token: Token,
                                         last: Time)
    requires Clock(last, events) && n <= |events|
    ensures forall i :: n <= i < |events| ==> LastUse(db, settings, events, n, token, last) <= events[i].time
  {
    if n > 0 { LastUseBefore(db, settings, events, n - 1, token, last); }
  }

  lemma {:induction false} RunUse(db: Db, settings: Settings, events: seq<Event>, n: nat, token: Token, last: Time)
    requires token in db.sessions && UsedUpTo(db.sessions[token], settings, last)
    requires Clock(last, events) && n <= |events|
    ensures token in After(db, settings, events, n).sessions
    ensures UsedUpTo(After(db, settings, events, n).sessions[token], settings,
                     LastUse(db, settings, events, n, token, last))
  {
    if n > 0 {
      RunUse(db, settings, events, n - 1, token, last);
      LastUseBefore(db, settings, events, n - 1, token, last);
    }
  }

  /** A session that has not been used for the idle timeout or longer is rejected. */
  lemma UnusedIsRejected(db: Db, settings: Settings, events: seq<Event>, n: nat, token: Token, last: Time)
    requires token in db.sessions && UsedUpTo(db.sessions[token], settings, last)
    requires Clock(last, events) && n < |events|
    requires events[n].time >= LastUse(db, settings, events, n, token, last) + settings.idle
    ensures !AcceptsAt(db, settings, events, n, token)
  {
    RunUse(db, settings, events, n, token, last);
  }

  // ---- Keeping a session alive ----

  /** Not revoked, its user active, and the idle expiry at least idle - touch after `last`. */
  predicate Alive(db: Db, settings: Settings, token: Token, last: Time) {
    && token in db.sessions
    && var s := db.sessions[token];
       && s.user in db.active && s.user in db.users && s.revokedAt.None?
       && s.absoluteExpiresAt == s.createdAt + settings.absolute
       && last - settings.touch <= s.lastSeenAt <= last
       && s.idleExpiresAt >= Min(s.lastSeenAt + settings.idle, s.absoluteExpiresAt)
  }

  /** The event neither revokes the session nor deactivates its user. */
  predicate Harmless(e: Event, s: Session) {
    match e.action
    case Revoke(id) => id != s.id
    case RevokeUser(user, except) => !HitsUser(s, user, except)
    case SetActive(user, active) => user != s.user || active
    case _ => true
  }

  /** The requests of the session before the n-th event; `last` if there is none. */
  function LastRequest(events: seq<Event>, n: nat, token: Token, last: Time): Time
    requires n <= |events|
  {
    if n == 0 then last
    else if events[n - 1].action == Request(token) then events[n - 1].time
    else LastRequest(events, n - 1, token, last)
  }

  /** Each request of the session follows the previous one by less than idle - touch. */
  predicate Regular(settings: Settings, events: seq<Event>, token: Token, last: Time) {
    forall i :: 0 <= i < |events| && events[i].action == Request(token) ==>
      events[i].time - LastRequest(events, i, token, last) < settings.idle - settings.touch
  }

  lemma StepAlive(db: Db, settings: Settings, e: Event, token: Token, last: Time)
    requires settings.touch >= 0 && Alive(db, settings, token, last) && last <= e.time
    requires Harmless(e, db.sessions[token]) && e.time < db.sessions[token].createdAt + settings.absolute
    requires e.action == Request(token) ==> e.time - last < settings.idle - settings.touch
    ensures Alive(Next(db, settings, e), settings, token, if e.action == Request(token) then e.time else last)
  {
  }

  lemma {:induction false} LastRequestBefore(events: seq<Event>, n: nat, token: Token, last: Time)
    requires Clock(last, events) && n <= |events|
    ensures forall i :: n <= i < |events| ==> LastRequest(events, n, token, last) <= events[i].time
  {
    if n > 0 { LastRequestBefore(events, n - 1, token, last); }
  }

  predicate AllHarmless(events: seq<Event>, s: Session) {
    forall i :: 0 <= i < |events| ==> Harmless(events[i], s)
  }

  lemma {:induction false} RunAlive(db: Db, settings: Settings, events: seq<Event>, n: nat, token: Token, last: Time)
    requires settings.touch >= 0 && Alive(db, settings, token, last) && Clock(last, events) && n <= |events|
    requires AllHarmless(events, db.sessions[token]) && Regular(settings, events, token, last)
    requires n > 0 ==> events[n - 1].time < db.sessions[token].createdAt + settings.absolute
    ensures Alive(After(db, settings, events, n), settings, token, LastRequest(events, n, token, last))
  {
    if n > 0 {
      RunAlive(db, settings, events, n - 1, token, last);
      LastRequestBefore(events, n - 1, token, last);
      RunKeepsSession(db, settings, events, n - 1, token);
      var now := After(db, settings, events, n - 1);
      assert Harmless(events[n - 1], now.sessions[token]);
      StepAlive(now, settings, events[n - 1], token, LastRequest(events, n - 1, token, last));
    }
  }

  /** A session whose requests are always closer than idle - touch, and that is not revoked, is accepted at
      every request exactly until its absolute expiry, whatever happens to other sessions. */
  lemma RegularUseKeepsAlive(db: Db, settings: Settings, events: seq<Event>, n: nat, token: Token, last: Time)
    requires settings.touch >= 0 && Alive(db, settings, token, last) && Clock(last, events) && n < |events|
    requires AllHarmless(events, db.sessions[token]) && Regular(settings, events, token, last)
    requires events[n].action == Request(token)
    ensures AcceptsAt(db, settings, events, n, token) <==>
      events[n].time < db.sessions[token].createdAt + settings.absolute
  {
    if events[n].time < db.sessions[token].createdAt + settings.absolute {
      RunAlive(db, settings, events, n, token, last);
      RunKeepsSession(db, settings, events, n, token);
    } else {
      AbsoluteExpiryHolds(db, settings, events, n, token);
    }
  }

  /** A login starts a session in these states. */
  lemma LoginStartsSession(db: Db, settings: Settings, id: SessionId, token: Token, user: UserId, now: Time)
    requires settings.touch >= 0 && token !in db.sessions
    ensures var db' := Next(db, settings, Event(now, Login(id, token, user)));
            if user in db.active && user in db.users
            then Alive(db', settings, token, now) && UsedUpTo(db'.sessions[token], settings, now)
                 && db'.sessions[token].createdAt == now
            else db' == db
  {
  }
}
