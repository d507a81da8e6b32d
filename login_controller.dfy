/** LoginController: the login decision cascade, logout and refresh.

    Login reads the account, consults the lock, asks the authentication
    manager (an oracle: the outcome of checking the password) and then either
    counts a failure or clears the counter. `LoginSpec` is that cascade on the
    users table; the method `Login` runs it through the service methods. */
module LoginController {
  import opened Common
  import opened UserEntity
  import opened UserRepo
  import opened UserService

  const ACCESS_COOKIE: string := "jwtToken"
  const REFRESH_COOKIE: string := "refreshToken"
  /** One hour. */
  const ACCESS_MAX_AGE: int := 60 * 60
  /** Seven days. */
  const REFRESH_MAX_AGE: int := 60 * 60 * 24 * 7

  datatype Cookie = Cookie(name: string, value: string, maxAge: int)

  /** The token pair generateTokens issues (the JWT library is outside the model). */
  datatype Tokens = Tokens(accessToken: string, refreshToken: string)

  /** What authenticationManager.authenticate does with the email and password:
      accept, throw BadCredentialsException, or throw another exception. */
  datatype AuthOutcome = Authenticated | BadCredentials | AuthenticationFailed(reason: string)

  /** The "user" map of a 200 body; the warning body also carries the status. */
  datatype UserView = UserView(email: string, name: string, profileImgUrl: string, status: Option<UserStatus>)

  datatype LoginResponse =
    | UnknownEmail
    | Locked(minutesLeft: int)
    | WrongPassword(attempts: int)
    | InactiveWarning(user: UserView, cookies: seq<Cookie>)
    | LoggedIn(user: UserView, cookies: seq<Cookie>)
      /** An exception login does not catch; the framework answers 500. */
    | Unhandled(error: string)

  const NULL_POINTER: string := "NullPointerException"

  function LoginStatus(r: LoginResponse): int
  {
    match r
    case UnknownEmail => 401
    case Locked(_) => 423
    case WrongPassword(_) => 401
    case InactiveWarning(_, _) => 200
    case LoggedIn(_, _) => 200
    case Unhandled(_) => 500
  }

  /** The text body of the 401 for a wrong password. */
  function WrongPasswordBody(attempts: int): (r: string)
    ensures EndsWith(r, IntToString(attempts) + "/5)")
  {
    var head := "비밀번호가 틀렸습니다. (로그인 시도 횟수: ";
    var r := head + IntToString(attempts) + "/5)";
    assert r[|r| - |IntToString(attempts) + "/5)"|..] == IntToString(attempts) + "/5)";
    r
  }

  /** Duration.between(from, to).toMinutes(): whole minutes, truncated toward zero. */
  function MinutesBetween(from: Instant, to: Instant): int
  {
    var s := to - from;
    if s >= 0 then s / MINUTE else -((-s) / MINUTE)
  }

  /** The access cookie (one hour) and the refresh cookie (seven days). */
  function LoginCookies(t: Tokens): seq<Cookie>
  {
    [Cookie(ACCESS_COOKIE, t.accessToken, ACCESS_MAX_AGE), Cookie(REFRESH_COOKIE, t.refreshToken, REFRESH_MAX_AGE)]
  }

  /** The user map of a 200 body. Map.of rejects a null value, so a user
      without a profile image makes building it throw. */
  function View(u: UserRow, withStatus: bool): Option<UserView>
  {
    if u.profileImgUrl.None? then None
    else Some(UserView(u.email, u.name, u.profileImgUrl.value, if withStatus then Some(u.status) else None))
  }

  /** login: the response and the users table afterwards. */
  function LoginSpec(rows: map<string, UserRow>, email: string, auth: AuthOutcome, tokens: Tokens,
                     now: Instant): (r: (LoginResponse, map<string, UserRow>))
    ensures email !in rows ==> r == (UnknownEmail, rows)
    ensures OthersUnchanged(rows, r.1, email)
    ensures email in rows ==> SameAccount(r.1[email], rows[email])
  {
    if email !in rows then (UnknownEmail, rows)
    else
      var user := rows[email];
      var (locked, rows1) := LockCheck(rows, email, now);
      if locked then
        // the remaining time is read from the row loaded before the check
        if user.lockedUntil.None? then (Unhandled(NULL_POINTER), rows1)
        else (Locked(MinutesBetween(now, user.lockedUntil.value)), rows1)
      else
        match auth
        case BadCredentials =>
          var (n, rows2) := IncrementStep(rows1, email, now);
          (WrongPassword(n), rows2)
        case AuthenticationFailed(reason) => (Unhandled(reason), rows1)
        case Authenticated =>
          var details := rows1[email];
          if details.status == INACTIVE then
            match View(details, true)
            case None => (Unhandled(NULL_POINTER), rows1)
            case Some(v) => (InactiveWarning(v, LoginCookies(tokens)), rows1)
          else
            var rows2 := UnlockStep(rows1, email);
            match View(details, false)
            case None => (Unhandled(NULL_POINTER), rows2)
            case Some(v) => (LoggedIn(v, LoginCookies(tokens)), rows2)
  }

  /** While a lock with a known end is running, login answers 423 with the
      whole minutes left, whatever the password, and changes nothing. */
  lemma LockedIgnoresPassword(rows: map<string, UserRow>, email: string, auth: AuthOutcome,
                              tokens: Tokens, now: Instant)
    requires email in rows && rows[email].accountLocked && rows[email].lockedUntil.Some?
    requires now <= rows[email].lockedUntil.value
    ensures var r := LoginSpec(rows, email, auth, tokens, now);
            && r == (Locked(MinutesBetween(now, rows[email].lockedUntil.value)), rows)
            && LoginStatus(r.0) == 423 && r.0.minutesLeft >= 0
            && r.0.minutesLeft * MINUTE <= rows[email].lockedUntil.value - now
  {
  }

  /** A wrong password on an unlocked account counts one more failure and
      reports the new count. */
  lemma WrongPasswordCounts(rows: map<string, UserRow>, email: string, tokens: Tokens, now: Instant)
    requires email in rows && !rows[email].accountLocked
    ensures var r := LoginSpec(rows, email, BadCredentials, tokens, now);
            && r.0 == WrongPassword(rows[email].loginAttempts + 1)
            && r == (r.0, IncrementStep(rows, email, now).1)
            && LoginStatus(r.0) == 401
  {
  }

  /** An INACTIVE account that authenticates gets the warning (or the null
      pointer failure) and keeps its failure count: the counter is not reset. */
  lemma InactiveKeepsCounter(rows: map<string, UserRow>, email: string, tokens: Tokens, now: Instant)
    requires email in rows && !rows[email].accountLocked && rows[email].status == INACTIVE
    ensures var r := LoginSpec(rows, email, Authenticated, tokens, now);
            && r.1 == rows
            && (rows[email].profileImgUrl.Some? ==> r.0.InactiveWarning? && r.0.cookies == LoginCookies(tokens))
  {
  }

  /** Any other account that authenticates has its lock cleared and its
      counter reset, even when building the body then fails. */
  lemma SuccessResetsCounter(rows: map<string, UserRow>, email: string, tokens: Tokens, now: Instant)
    requires email in rows && !LockCheck(rows, email, now).0 && rows[email].status != INACTIVE
    ensures var r := LoginSpec(rows, email, Authenticated, tokens, now);
            && r.1[email].loginAttempts == 0 && !r.1[email].accountLocked && r.1[email].lockedUntil.None?
            && (rows[email].profileImgUrl.Some? ==> r.0.LoggedIn? && LoginStatus(r.0) == 200)
  {
  }

  /** The cookies a successful login sets: one hour for the access token,
      seven days for the refresh token. */
  lemma LoginCookieLifetimes(rows: map<string, UserRow>, email: string, auth: AuthOutcome, tokens: Tokens, now: Instant)
    ensures var r := LoginSpec(rows, email, auth, tokens, now).0;
            (r.LoggedIn? || r.InactiveWarning?) ==>
              && |r.cookies| == 2
              && r.cookies[0] == Cookie("jwtToken", tokens.accessToken, 3600)
              && r.cookies[1] == Cookie("refreshToken", tokens.refreshToken, 604800)
  {
  }

  // ---------------------------------------------------------------------
  // Repeated wrong passwords
  // ---------------------------------------------------------------------

  const NO_TOKENS: Tokens := Tokens("", "")

  /** Logins with a wrong password at the given instants, in order: the
      responses and the table afterwards. */
  function BadLogins(rows: map<string, UserRow>, email: string, times: seq<Instant>): (r: (seq<LoginResponse>, map<string, UserRow>))
    ensures |r.0| == |times|
    decreases |times|
  {
    if |times| == 0 then ([], rows)
    else
      var before := BadLogins(rows, email, times[..|times| - 1]);
      var step := LoginSpec(before.1, email, BadCredentials, NO_TOKENS, times[|times| - 1]);
      (before.0 + [step.0], step.1)
  }

  /** Below the threshold, each wrong password reports one more failure and
      the account stays unlocked. */
  lemma {:induction false} BadLoginsCount(rows: map<string, UserRow>, email: string, times: seq<Instant>)
    requires email in rows && !rows[email].accountLocked
    requires rows[email].loginAttempts + |times| < MAX_LOGIN_ATTEMPTS
    ensures var r := BadLogins(rows, email, times);
            && email in r.1 && !r.1[email].accountLocked
            && r.1[email].loginAttempts == rows[email].loginAttempts + |times|
            && forall i :: 0 <= i < |times| ==> r.0[i] == WrongPassword(rows[email].loginAttempts + i + 1)
    decreases |times|
  {
    if |times| > 0 {
      var prefix := times[..|times| - 1];
      BadLoginsCount(rows, email, prefix);
      var before := BadLogins(rows, email, prefix);
      WrongPasswordCounts(before.1, email, NO_TOKENS, times[|times| - 1]);
    }
  }

  /** Five wrong passwords in a row on a fresh account answer 1/5 .. 5/5 and
      leave it locked for thirty minutes from the fifth attempt. */
  lemma FiveWrongPasswordsLock(rows: map<string, UserRow>, email: string, times: seq<Instant>)
    requires email in rows && !rows[email].accountLocked && rows[email].loginAttempts == 0
    requires |times| == 5
    ensures var r := BadLogins(rows, email, times);
            && r.0 == [WrongPassword(1), WrongPassword(2), WrongPassword(3), WrongPassword(4), WrongPassword(5)]
            && email in r.1 && r.1[email].accountLocked && r.1[email].loginAttempts == 5
            && r.1[email].lockedUntil == Some(times[4] + LOCK_DURATION)
  {
    var prefix := times[..4];
    BadLoginsCount(rows, email, prefix);
    var before := BadLogins(rows, email, prefix);
    WrongPasswordCounts(before.1, email, NO_TOKENS, times[4]);
  }

  /** After those five, every login up to the end of the lock answers 423
      whatever the password; once the end has passed, the lock is lifted and
      a wrong password counts from one again. */
  lemma LockedUntilExpiry(rows: map<string, UserRow>, email: string, times: seq<Instant>,
                          auth: AuthOutcome, tokens: Tokens, now: Instant)
    requires email in rows && !rows[email].accountLocked && rows[email].loginAttempts == 0
    requires |times| == 5
    ensures var locked := BadLogins(rows, email, times).1;
            && (now <= times[4] + LOCK_DURATION ==>
                  LoginSpec(locked, email, auth, tokens, now) ==
                  (Locked(MinutesBetween(now, times[4] + LOCK_DURATION)), locked))
            && (now > times[4] + LOCK_DURATION ==>
                  LoginSpec(locked, email, BadCredentials, tokens, now).0 == WrongPassword(1))
  {
    FiveWrongPasswordsLock(rows, email, times);
    var locked := BadLogins(rows, email, times).1;
    if now > times[4] + LOCK_DURATION {
      var lifted := LockCheck(locked, email, now);
      assert !lifted.0 && lifted.1[email].loginAttempts == 0;
      assert IncrementStep(lifted.1, email, now).0 == 1;
    }
  }

  // ---------------------------------------------------------------------
  // The controller method
  // ---------------------------------------------------------------------

  method Login(repo: UserRepository, email: string, auth: AuthOutcome, tokens: Tokens, now: Instant)
    returns (response: LoginResponse)
    requires repo.Valid()
    modifies repo
    ensures repo.Valid() && repo.nextId == old(repo.nextId)
    ensures (response, repo.rows) == LoginSpec(old(repo.rows), email, auth, tokens, now)
  {
    var user := repo.FindByEmail(email);
    if user.None? {
      return UnknownEmail;
    }
    var locked := IsAccountLocked(repo, email, now);
    if locked {
      if user.value.lockedUntil.None? {
        return Unhandled(NULL_POINTER);
      }
      return Locked(MinutesBetween(now, user.value.lockedUntil.value));
    }
    match auth {
      case BadCredentials =>
        var attempts := IncrementLoginAttempts(repo, email, now);
        return WrongPassword(attempts);
      case AuthenticationFailed(reason) =>
        return Unhandled(reason);
      case Authenticated =>
        var loaded := repo.FindByEmail(email);
        var details := loaded.value;
        if details.status == INACTIVE {
          match View(details, true) {
            case None => return Unhandled(NULL_POINTER);
            case Some(v) => return InactiveWarning(v, LoginCookies(tokens));
          }
        }
        UnlockAccount(repo, email);
        match View(details, false) {
          case None => return Unhandled(NULL_POINTER);
          case Some(v) => return LoggedIn(v, LoginCookies(tokens));
        }
    }
  }

  // ---------------------------------------------------------------------
  // logout and refresh
  // ---------------------------------------------------------------------

  datatype LogoutResponse = NotLoggedIn | InvalidToken | LoggedOut(cookies: seq<Cookie>)

  function LogoutStatus(r: LogoutResponse): int
  {
    if r.LoggedOut? then 200 else 401
  }

  /** logout: both cookies are cleared (empty, max-age 0) only for a present
      and valid access-token cookie; otherwise 401. */
  function Logout(accessToken: Option<string>, validateToken: string -> bool): (r: LogoutResponse)
    ensures r.LoggedOut? <==> accessToken.Some? && validateToken(accessToken.value)
    ensures accessToken.None? ==> r == NotLoggedIn
    ensures r.LoggedOut? ==> |r.cookies| == 2
                             && r.cookies[0].name == ACCESS_COOKIE && r.cookies[1].name == REFRESH_COOKIE
                             && forall i :: 0 <= i < 2 ==> r.cookies[i].maxAge == 0 && r.cookies[i].value == ""
  {
    if accessToken.None? then NotLoggedIn
    else if !validateToken(accessToken.value) then InvalidToken
    else LoggedOut([Cookie(ACCESS_COOKIE, "", 0), Cookie(REFRESH_COOKIE, "", 0)])
  }

  datatype RefreshResponse = Refreshed(cookie: Cookie) | InvalidRefreshToken | RefreshFailed

  function RefreshStatus(r: RefreshResponse): int
  {
    match r
    case Refreshed(_) => 200
    case InvalidRefreshToken => 401
    case RefreshFailed => 500
  }

  /** refresh: a valid refresh token yields a new one-hour access cookie for
      the token's email; an invalid one gives 401 and any exception 500.
      Validation, reading the email and issuing the token are JWT oracles. */
  function Refresh(refreshToken: string, validate: string -> Attempt<bool>,
                   emailOf: string -> Attempt<string>, generate: string -> Attempt<string>): (r: RefreshResponse)
    ensures r.Refreshed? <==> validate(refreshToken) == Done(true) && emailOf(refreshToken).Done?
                              && generate(emailOf(refreshToken).value).Done?
    ensures r.Refreshed? ==> r.cookie == Cookie(ACCESS_COOKIE, generate(emailOf(refreshToken).value).value, ACCESS_MAX_AGE)
    ensures r == InvalidRefreshToken <==> validate(refreshToken) == Done(false)
  {
    match validate(refreshToken)
    case Raise(_) => RefreshFailed
    case Done(false) => InvalidRefreshToken
    case Done(true) =>
      match emailOf(refreshToken)
      case Raise(_) => RefreshFailed
      case Done(email) =>
        match generate(email)
        case Raise(_) => RefreshFailed
        case Done(token) => Refreshed(Cookie(ACCESS_COOKIE, token, ACCESS_MAX_AGE))
  }
}
