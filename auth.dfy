/** lib/auth.ts: the in-memory session map, sign-up and sign-in against the
    users table, and the header inspection behind `getCurrentUser`. Tokens
    and ids, which the source draws from `Math.random` and the clock, are
    fresh-value parameters; `now` is `Date.now()`. */
module Auth {
  import opened Base
  import opened Db

  /** Seven days in milliseconds (`7 * 24 * 60 * 60 * 1000`). */
  const SessionLifetimeMs: int := 7 * 24 * 60 * 60 * 1000

  const SessionCookie: string := "applyflow_session"

  /** The email `getCurrentUser` looks up for any request that carries
      credentials. */
  const TestEmail: string := "test@example.com"

  datatype Session = Session(userId: string, expiresAt: Millis)

  /** The map after `createSession`. */
  function Created(sessions: map<string, Session>, userId: string, token: string, now: Millis): (r: map<string, Session>)
    ensures r.Keys == sessions.Keys + {token}
    ensures r[token] == Session(userId, now + SessionLifetimeMs)
    ensures forall t :: t in sessions && t != token ==> r[t] == sessions[t]
  {
    sessions[token := Session(userId, now + SessionLifetimeMs)]
  }

  /** A session is still good up to and including its expiry instant. */
  predicate Live(s: Session, now: Millis) {
    now <= s.expiresAt
  }

  /** The answer of `validateSession`. */
  function Validated(sessions: map<string, Session>, token: string, now: Millis): (r: Option<string>)
    ensures r.Some? <==> token in sessions && Live(sessions[token], now)
    ensures r.Some? ==> r.value == sessions[token].userId
  {
    if token in sessions && Live(sessions[token], now) then Some(sessions[token].userId) else None
  }

  /** The map after `validateSession`: an expired token is dropped, nothing
      else changes. */
  function AfterValidate(sessions: map<string, Session>, token: string, now: Millis): (r: map<string, Session>)
    ensures token in sessions && !Live(sessions[token], now) ==> r == sessions - {token}
    ensures !(token in sessions && !Live(sessions[token], now)) ==> r == sessions
  {
    if token in sessions && !Live(sessions[token], now) then sessions - {token} else sessions
  }

  /** A session created at `t0` validates to its user exactly until
      `t0 + 7 days` inclusive, and is dropped by the first validation after. */
  lemma SessionLifetime(sessions: map<string, Session>, userId: string, token: string, t0: Millis, t: Millis)
    ensures Validated(Created(sessions, userId, token, t0), token, t) == (if t <= t0 + SessionLifetimeMs then Some(userId) else None)
    ensures t > t0 + SessionLifetimeMs ==>
      token !in AfterValidate(Created(sessions, userId, token, t0), token, t)
  {
  }

  /** Destroying is idempotent and touches no other token. */
  lemma DestroyIdempotent(sessions: map<string, Session>, token: string)
    ensures (sessions - {token}) - {token} == sessions - {token}
    ensures forall t :: t != token ==> (t in sessions - {token} <==> t in sessions)
  {
  }

  class SessionStore {
    var sessions: map<string, Session>

    constructor ()
      ensures sessions == map[]
    {
      sessions := map[];
    }

    /** `createSession`: stores the token with the user and an expiry seven
        days ahead, and hands the token back. */
    method CreateSession(userId: string, token: string, now: Millis) returns (r: string)
      modifies this
      ensures r == token
      ensures sessions == Created(old(sessions), userId, token, now)
    {
      sessions := sessions[token := Session(userId, now + SessionLifetimeMs)];
      r := token;
    }

    /** `validateSession`: unknown gives null; expired (strictly after the
        expiry instant) is deleted and gives null; otherwise the user id. */
    method ValidateSession(token: string, now: Millis) returns (r: Option<string>)
      modifies this
      ensures r == Validated(old(sessions), token, now)
      ensures sessions == AfterValidate(old(sessions), token, now)
    {
      if token !in sessions {
        return None;
      }
      var session := sessions[token];
      if now > session.expiresAt {
        sessions := sessions - {token};
        return None;
      }
      r := Some(session.userId);
    }

    /** `destroySession`. */
    method DestroySession(token: string)
      modifies this
      ensures sessions == old(sessions) - {token}
    {
      sessions := sessions - {token};
    }
  }

  /** `signUp`: null when the email is taken; otherwise insert the user and
      read it back by the fresh id. */
  method SignUp(db: Database, email: string, freshId: string, now: Millis) returns (r: Option<UserRow>)
    requires db.Valid()
    modifies db`users
    ensures db.Valid()
    ensures HasEmail(old(db.users), email) ==> r.None? && db.users == old(db.users)
    ensures !HasEmail(old(db.users), email) ==>
      db.users == InsertOrIgnoreUser(old(db.users), freshId, email, now) && r == UserById(db.users, freshId)
    ensures !HasEmail(old(db.users), email) && !HasUserId(old(db.users), freshId) ==>
      r == Some(UserRow(freshId, email, now, now))
  {
    var existing := UserByEmail(db.users, email);
    if existing.Some? {
      return None;
    }
    db.CreateUser(freshId, email, now);
    r := UserById(db.users, freshId);
    if !HasUserId(old(db.users), freshId) {
      assert db.users == old(db.users) + [UserRow(freshId, email, now, now)];
      assert forall u :: u in old(db.users) ==> u.id != freshId;
    }
  }

  /** `signIn`: the password is never looked at; the user with that email
      is reused or created, and a new session is always opened for it. */
  method SignIn(db: Database, store: SessionStore, email: string, password: string, freshId: string,
                token: string, now: Millis) returns (user: UserRow, r: string)
    requires db.Valid()
    modifies db`users, store
    ensures db.Valid()
    ensures HasEmail(old(db.users), email) ==>
      db.users == old(db.users) && Some(user) == UserByEmail(old(db.users), email)
    ensures !HasEmail(old(db.users), email) ==>
      db.users == InsertOrIgnoreUser(old(db.users), freshId, email, now) && Some(user) == UserById(db.users, freshId)
    ensures user in db.users
    ensures HasEmail(old(db.users), email) || !HasUserId(old(db.users), freshId) ==> user.email == email
    ensures r == token
    ensures store.sessions == Created(old(store.sessions), user.id, token, now)
  {
    var found := UserByEmail(db.users, email);
    if found.None? {
      db.CreateUser(freshId, email, now);
      found := UserById(db.users, freshId);
    }
    user := found.value;
    r := store.CreateSession(user.id, token, now);
  }

  /** `request.headers.get('cookie') || ''`, split on ';', holds a segment
      that starts with `applyflow_session=` once trimmed. A missing or empty
      header has none. */
  predicate HasSessionCookie(cookie: Option<string>)
    ensures !Truthy(cookie) ==> !HasSessionCookie(cookie)
  {
    FindFirst(Split(OrElse(cookie, ""), ';'), IsSessionPiece).Some?
  }

  /** One `;`-separated piece of the cookie header that names the session:
      once trimmed, `applyflow_session=` followed by some value. */
  predicate IsSessionPiece(c: string)
    ensures IsSessionPiece(c) ==> exists value :: Trim(c) == SessionCookie + "=" + value
  {
    if StartsWith(Trim(c), SessionCookie + "=") then
      assert Trim(c) == SessionCookie + "=" + Trim(c)[|SessionCookie + "="|..];
      true
    else
      false
  }

  /** Any piece that trims to `applyflow_session=` and a value names the
      session, an empty value included. */
  lemma SessionPieceOfAnyValue(c: string, value: string)
    requires Trim(c) == SessionCookie + "=" + value
    ensures IsSessionPiece(c)
  {
    assert (SessionCookie + "=" + value)[..|SessionCookie + "="|] == SessionCookie + "=";
  }

  /** An Authorization header that starts with `Bearer `: `Bearer ` and some
      token. */
  predicate HasBearer(authorization: Option<string>)
    ensures HasBearer(authorization) ==> exists token :: authorization == Some("Bearer " + token)
  {
    if Truthy(authorization) && StartsWith(authorization.value, "Bearer ") then
      assert authorization.value == "Bearer " + authorization.value[7..];
      true
    else
      false
  }

  /** `getCurrentUser`: any bearer header, or any session cookie, yields the
      user stored under the test email; the token itself is never examined. */
  function GetCurrentUser(users: seq<UserRow>, authorization: Option<string>, cookie: Option<string>): (r: Option<UserRow>)
    ensures HasBearer(authorization) || HasSessionCookie(cookie) ==> r == UserByEmail(users, TestEmail)
    ensures !HasBearer(authorization) && !HasSessionCookie(cookie) ==> r.None?
    ensures r.Some? ==> r.value in users && r.value.email == TestEmail
  {
    if HasBearer(authorization) then UserByEmail(users, TestEmail)
    else if HasSessionCookie(cookie) then UserByEmail(users, TestEmail)
    else None
  }

  /** Two bearer headers with different tokens give the same user. */
  lemma TokenNeverChecked(users: seq<UserRow>, t1: string, t2: string, c1: Option<string>, c2: Option<string>)
    ensures GetCurrentUser(users, Some("Bearer " + t1), c1) == GetCurrentUser(users, Some("Bearer " + t2), c2)
  {
    BearerPrefix(t1);
    BearerPrefix(t2);
  }

  lemma BearerPrefix(t: string)
    ensures HasBearer(Some("Bearer " + t))
  {
    assert ("Bearer " + t)[..7] == "Bearer ";
  }

  /** A session cookie among others is found whatever its value and
      whatever surrounds it. */
  lemma SessionCookieFound(before: string, value: string)
    requires ';' !in value && (value == [] || !IsSpace(value[|value| - 1]))
    ensures HasSessionCookie(Some(before + ";" + SessionCookie + "=" + value))
  {
    var piece := SessionCookie + "=" + value;
    var header := before + ";" + SessionCookie + "=" + value;
    assert header == before + [';'] + piece;
    assert ';' !in piece by {
      assert forall i :: 0 <= i < |piece| ==> piece[i] == ';' ==> i >= |SessionCookie| + 1;
    }
    assert piece in Split(OrElse(Some(header), ""), ';') by {
      SplitLast(before, piece, ';');
      var pieces := Split(header, ';');
      assert pieces[|pieces| - 1] == piece;
      assert OrElse(Some(header), "") == header;
    }
    assert IsSessionPiece(piece) by {
      CookiePieceMatches(value);
    }
    PieceFound(Some(header), piece);
  }

  /** A session cookie is found only as one of the pieces of the split
      header. */
  lemma SessionPieceOf(cookie: Option<string>)
    requires HasSessionCookie(cookie)
    ensures exists c :: c in Split(OrElse(cookie, ""), ';') && IsSessionPiece(c)
  {
  }

  /** A session piece anywhere in the split header is found. */
  lemma PieceFound(cookie: Option<string>, piece: string)
    requires piece in Split(OrElse(cookie, ""), ';')
    requires IsSessionPiece(piece)
    ensures HasSessionCookie(cookie)
  {
  }

  /** The piece `applyflow_session=<value>` survives trimming. */
  lemma CookiePieceMatches(value: string)
    requires value == [] || !IsSpace(value[|value| - 1])
    ensures IsSessionPiece(SessionCookie + "=" + value)
  {
    var piece := SessionCookie + "=" + value;
    assert piece[0] == 'a';
    assert !IsSpace(piece[|piece| - 1]);
    TrimNoSpaceEnds(piece);
  }

  /** Splitting `a;b` where `b` holds no separator ends with the piece `b`. */
  lemma {:induction false} SplitLast(a: string, b: string, sep: char)
    requires sep !in b
    ensures |Split(a + [sep] + b, sep)| >= 2
    ensures Split(a + [sep] + b, sep)[|Split(a + [sep] + b, sep)| - 1] == b
  {
    if a == [] {
      assert [sep] + b == a + [sep] + b;
      assert ([sep] + b)[1..] == b;
      SplitNoSep(b, sep);
    } else {
      SplitLast(a[1..], b, sep);
      assert (a + [sep] + b)[1..] == a[1..] + [sep] + b;
    }
  }

  lemma {:induction false} SplitNoSep(s: string, sep: char)
    requires sep !in s
    ensures Split(s, sep) == [s]
  {
    if s != [] {
      SplitNoSep(s[1..], sep);
      assert [s[0]] + s[1..] == s;
    }
  }

  /** Trimming leaves a string alone when it neither starts nor ends with
      whitespace. */
  lemma TrimNoSpaceEnds(s: string)
    requires s != [] && !IsSpace(s[0]) && !IsSpace(s[|s| - 1])
    ensures Trim(s) == s
  {
  }
}

/** POST /api/auth/signin. */
module SignInRoute {
  import opened Base
  import opened Db
  import opened Http
  import opened Auth

  /** `60 * 60 * 24 * 7` seconds. */
  const CookieMaxAge: int := 60 * 60 * 24 * 7

  /** The cookie lives exactly as long as the session it carries. */
  lemma CookieMatchesSession()
    ensures CookieMaxAge * 1000 == SessionLifetimeMs
  {
  }

  datatype Cookie = Cookie(name: string, value: string, httpOnly: bool, secure: bool, sameSite: string, maxAge: int)

  datatype SignedIn = SignedIn(id: string, email: string, token: string)

  /** The session cookie set on a successful response. */
  function SessionCookieFor(token: string, production: bool): (c: Cookie)
    ensures c.name == SessionCookie && c.value == token
    ensures c.httpOnly && c.sameSite == "lax" && c.maxAge * 1000 == SessionLifetimeMs
    ensures c.secure <==> production
  {
    Cookie(SessionCookie, token, true, production, "lax", CookieMaxAge)
  }

  /** POST: 400 without a truthy email and password, 401 when sign-in gives
      nothing, otherwise the user and token with the token also set as the
      session cookie. The session stored is the seven-day session the
      cookie's max-age matches, every other session is kept, and the users
      table gains a row only for a new email. `body` is `None` when the JSON
      cannot be read, which ends in a 500 and changes nothing. */
  method Post(db: Database, store: SessionStore, body: Option<(Option<string>, Option<string>)>,
              freshId: string, token: string, now: Millis, production: bool)
    returns (resp: Response<SignedIn>, cookie: Option<Cookie>)
    requires db.Valid()
    modifies db`users, store
    ensures db.Valid()
    ensures body.None? ==> resp == Error(500, InternalServerError) && cookie.None?
    ensures body.None? ==> db.users == old(db.users) && store.sessions == old(store.sessions)
    ensures body.Some? && !(Truthy(body.value.0) && Truthy(body.value.1)) ==>
      resp.Error? && resp.status == 400 && cookie.None? && db.users == old(db.users) && store.sessions == old(store.sessions)
    ensures body.Some? && Truthy(body.value.0) && Truthy(body.value.1) ==>
      && resp.Reply? && resp.status == 200
      && resp.body.token == token
      && (exists u :: u in db.users && u.id == resp.body.id && u.email == resp.body.email)
      && (HasEmail(old(db.users), body.value.0.value) || !HasUserId(old(db.users), freshId) ==>
            resp.body.email == body.value.0.value)
      && token in store.sessions && store.sessions[token].userId == resp.body.id
      && store.sessions == Created(old(store.sessions), resp.body.id, token, now)
      && (HasEmail(old(db.users), body.value.0.value) ==> db.users == old(db.users))
      && (!HasEmail(old(db.users), body.value.0.value) ==>
            db.users == InsertOrIgnoreUser(old(db.users), freshId, body.value.0.value, now))
      && cookie == Some(SessionCookieFor(token, production))
      && store.sessions[token].expiresAt == now + cookie.value.maxAge * 1000
  {
    cookie := None;
    if body.None? {
      return Error(500, InternalServerError), None;
    }
    var email, password := body.value.0, body.value.1;
    if !Truthy(email) || !Truthy(password) {
      return Error(400, "Email and password are required"), None;
    }
    var user, t := SignIn(db, store, email.value, password.value, freshId, token, now);
    resp := Reply(200, SignedIn(user.id, user.email, t));
    cookie := Some(SessionCookieFor(t, production));
  }
}
