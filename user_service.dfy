/** UserService: the login-lock counter, profile updates, account
    (de)activation and the two token checks.

    Each state-changing operation is a method on the repository whose
    postcondition ties the new table to a pure step function; the step
    functions carry what the service promises and are what the login
    controller's specification composes. The clock is the `now` parameter;
    the password encoder, the image upload and the JWT parser are oracles. */
module UserService {
  import opened Common
  import opened UserEntity
  import opened UserRepo

  /** The failed-attempt count at which an account locks. */
  const MAX_LOGIN_ATTEMPTS: int := 5
  /** How long a lock lasts. */
  const LOCK_DURATION: int := 30 * MINUTE

  const USER_NOT_FOUND_MESSAGE: string := "사용자를 찾을 수 없습니다."
  const SAME_PASSWORD_MESSAGE: string := "새 비밀번호는 현재 비밀번호와 달라야 합니다."
  const NOT_INACTIVE_MESSAGE: string := "비활성화된 계정만 활성화할 수 있습니다."

  /** The columns nothing in this service touches. */
  predicate SameIdentity(a: UserRow, b: UserRow)
  {
    a.id == b.id && a.email == b.email && a.mailStatus == b.mailStatus
    && a.emailVerificationCode == b.emailVerificationCode
    && a.emailVerificationExpiredAt == b.emailVerificationExpiredAt
  }

  /** The columns of the login lock. */
  predicate SameLock(a: UserRow, b: UserRow)
  {
    a.loginAttempts == b.loginAttempts && a.accountLocked == b.accountLocked
    && a.lockedUntil == b.lockedUntil && a.lastLoginAttempt == b.lastLoginAttempt
  }

  /** Everything but the login lock. */
  predicate SameAccount(a: UserRow, b: UserRow)
  {
    SameIdentity(a, b) && a.password == b.password && a.name == b.name
    && a.profileImgUrl == b.profileImgUrl && a.status == b.status
  }

  /** Only the row under `email` may differ. */
  predicate OthersUnchanged(before: map<string, UserRow>, after: map<string, UserRow>, email: string)
  {
    after.Keys == before.Keys && forall e :: e in before && e != email ==> after[e] == before[e]
  }

  // ---------------------------------------------------------------------
  // The login lock
  // ---------------------------------------------------------------------

  /** A lock whose end lies strictly in the past. */
  predicate LockExpired(u: UserRow, now: Instant)
  {
    u.accountLocked && u.lockedUntil.Some? && now > u.lockedUntil.value
  }

  /** unlockAccount: the lock is lifted and the counter cleared; an unknown
      email changes nothing. */
  function UnlockStep(rows: map<string, UserRow>, email: string): (r: map<string, UserRow>)
    ensures email !in rows ==> r == rows
    ensures OthersUnchanged(rows, r, email)
    ensures email in rows ==> SameAccount(r[email], rows[email])
                              && !r[email].accountLocked && r[email].loginAttempts == 0
                              && r[email].lockedUntil.None?
                              && r[email].lastLoginAttempt == rows[email].lastLoginAttempt
  {
    if email !in rows then rows
    else rows[email := rows[email].(accountLocked := false, loginAttempts := 0, lockedUntil := None)]
  }

  /** incrementLoginAttempts: the new count, and the table with it stored. The
      account locks for thirty minutes once the count reaches five; below that
      the lock columns keep their values. An unknown email gives 0 and
      changes nothing. */
  function IncrementStep(rows: map<string, UserRow>, email: string, now: Instant): (r: (int, map<string, UserRow>))
    ensures email !in rows ==> r == (0, rows)
    ensures OthersUnchanged(rows, r.1, email)
    ensures email in rows ==>
              && r.0 == rows[email].loginAttempts + 1
              && SameAccount(r.1[email], rows[email])
              && r.1[email].loginAttempts == r.0
              && r.1[email].lastLoginAttempt == Some(now)
              && (r.1[email].accountLocked <==> r.0 >= MAX_LOGIN_ATTEMPTS)
              && (r.0 >= MAX_LOGIN_ATTEMPTS ==> r.1[email].lockedUntil == Some(now + LOCK_DURATION))
              && (r.0 < MAX_LOGIN_ATTEMPTS ==> r.1[email].lockedUntil == rows[email].lockedUntil)
  {
    if email !in rows then (0, rows)
    else
      var u := rows[email];
      var n := u.loginAttempts + 1;
      (n, rows[email := u.(loginAttempts := n, lastLoginAttempt := Some(now), accountLocked := n >= MAX_LOGIN_ATTEMPTS,
                           lockedUntil := if n >= MAX_LOGIN_ATTEMPTS then Some(now + LOCK_DURATION) else u.lockedUntil)])
  }

  /** isAccountLocked: an expired lock is lifted on the way (and reported as
      not locked); otherwise the stored flag is the answer and nothing changes. */
  function LockCheck(rows: map<string, UserRow>, email: string, now: Instant): (r: (bool, map<string, UserRow>))
    ensures r.0 <==> email in rows && rows[email].accountLocked
                     && (rows[email].lockedUntil.None? || now <= rows[email].lockedUntil.value)
    ensures email in rows && LockExpired(rows[email], now) ==> r.1 == UnlockStep(rows, email)
    ensures !(email in rows && LockExpired(rows[email], now)) ==> r.1 == rows
  {
    if email !in rows then (false, rows)
    else if LockExpired(rows[email], now) then (false, UnlockStep(rows, email))
    else (rows[email].accountLocked, rows)
  }

  /** Unlocking twice is unlocking once. */
  lemma UnlockIdempotent(rows: map<string, UserRow>, email: string)
    ensures UnlockStep(UnlockStep(rows, email), email) == UnlockStep(rows, email)
  {
  }

  /** The increment that reaches five locks the account for exactly thirty
      minutes: the lock check reports it locked, without changing anything,
      up to and including the end instant, and lifts it afterwards. */
  lemma LockHoldsUntilExpiry(rows: map<string, UserRow>, email: string, t: Instant, now: Instant)
    requires email in rows && rows[email].loginAttempts + 1 >= MAX_LOGIN_ATTEMPTS
    ensures var after := IncrementStep(rows, email, t).1;
            && (now <= t + LOCK_DURATION ==> LockCheck(after, email, now) == (true, after))
            && (now > t + LOCK_DURATION ==>
                  && !LockCheck(after, email, now).0
                  && LockCheck(after, email, now).1[email].loginAttempts == 0
                  && !LockCheck(after, email, now).1[email].accountLocked)
  {
  }

  // ---------------------------------------------------------------------
  // Profile update and account status
  // ---------------------------------------------------------------------

  /** The UserUpdateDto fields the service reads; null keeps the old value. */
  datatype UserUpdate = UserUpdate(newPassword: Option<string>, name: Option<string>)

  /** updateUser: the rebuilt row, or the exception. A new password the
      encoder says matches the current one is refused, before any upload. A
      profile image (None when absent or empty) replaces the URL through the
      upload, whose failure aborts the update. */
  function UpdatedUser(rows: map<string, UserRow>, email: string, dto: UserUpdate,
                       matches: (string, Option<string>) -> bool, encode: string -> string,
                       upload: Option<Result<string>>): (r: Result<UserRow>)
    ensures email !in rows ==> r == Err(IllegalArgument(USER_NOT_FOUND_MESSAGE))
    ensures email in rows && dto.newPassword.Some? && matches(dto.newPassword.value, rows[email].password) ==>
              r == Err(IllegalArgument(SAME_PASSWORD_MESSAGE))
    ensures r.Ok? <==> email in rows
                       && !(dto.newPassword.Some? && matches(dto.newPassword.value, rows[email].password))
                       && !(upload.Some? && upload.value.Err?)
    ensures r.Ok? ==>
              && SameIdentity(r.value, rows[email]) && SameLock(r.value, rows[email])
              && r.value.status == rows[email].status
              && (dto.newPassword.None? ==> r.value.password == rows[email].password)
              && (dto.newPassword.Some? ==> r.value.password == Some(encode(dto.newPassword.value)))
              && r.value.name == dto.name.GetOr(rows[email].name)
              && (upload.None? ==> r.value.profileImgUrl == rows[email].profileImgUrl)
              && (upload.Some? ==> r.value.profileImgUrl == Some(upload.value.value))
  {
    if email !in rows then Err(IllegalArgument(USER_NOT_FOUND_MESSAGE))
    else
      var u := rows[email];
      if dto.newPassword.Some? && matches(dto.newPassword.value, u.password) then
        Err(IllegalArgument(SAME_PASSWORD_MESSAGE))
      else if upload.Some? && upload.value.Err? then
        Err(upload.value.error)
      else
        var url := if upload.Some? then Some(upload.value.value) else u.profileImgUrl;
        var password := if dto.newPassword.Some? then Some(encode(dto.newPassword.value)) else u.password;
        Ok(u.(password := password, name := dto.name.GetOr(u.name), profileImgUrl := url))
  }

  /** deactivateUser: any existing account becomes INACTIVE. */
  function Deactivated(rows: map<string, UserRow>, email: string): (r: Result<UserRow>)
    ensures r.Ok? <==> email in rows
    ensures r.Err? ==> r.error == IllegalArgument(USER_NOT_FOUND_MESSAGE)
    ensures r.Ok? ==> r.value.status == INACTIVE && SameIdentity(r.value, rows[email])
                      && SameLock(r.value, rows[email]) && r.value.password == rows[email].password
                      && r.value.name == rows[email].name && r.value.profileImgUrl == rows[email].profileImgUrl
  {
    if email !in rows then Err(IllegalArgument(USER_NOT_FOUND_MESSAGE))
    else Ok(rows[email].(status := INACTIVE))
  }

  /** activateUser: only an INACTIVE account can be activated, and it becomes ACTIVE. */
  function Activated(rows: map<string, UserRow>, email: string): (r: Result<UserRow>)
    ensures r.Ok? <==> email in rows && rows[email].status == INACTIVE
    ensures email !in rows ==> r == Err(IllegalArgument(USER_NOT_FOUND_MESSAGE))
    ensures email in rows && rows[email].status != INACTIVE ==> r == Err(IllegalArgument(NOT_INACTIVE_MESSAGE))
    ensures r.Ok? ==> r.value.status == ACTIVE && SameIdentity(r.value, rows[email])
                      && SameLock(r.value, rows[email]) && r.value.password == rows[email].password
                      && r.value.name == rows[email].name && r.value.profileImgUrl == rows[email].profileImgUrl
  {
    if email !in rows then Err(IllegalArgument(USER_NOT_FOUND_MESSAGE))
    else if rows[email].status != INACTIVE then Err(IllegalArgument(NOT_INACTIVE_MESSAGE))
    else Ok(rows[email].(status := ACTIVE))
  }

  /** Deactivating an ACTIVE account and activating it again restores the
      row; activating it a second time is refused. */
  lemma DeactivateThenActivate(rows: map<string, UserRow>, email: string)
    requires email in rows && rows[email].status == ACTIVE
    ensures var off := rows[email := Deactivated(rows, email).value];
            && Activated(off, email) == Ok(rows[email])
            && Activated(rows, email).Err?
  {
  }

  // ---------------------------------------------------------------------
  // Token checks
  // ---------------------------------------------------------------------

  /** The claims read from a password-reset token; a claim that is absent or
      not a string is null. */
  datatype ResetClaims = ResetClaims(email: Option<string>, emailVerificationCode: Option<string>,
                                     expirationTime: Option<string>, tokenType: Option<string>)

  /** verifyPasswordResetCode. `claims` is None when the token does not parse
      or its signature fails; `parseTime` is LocalDateTime.parse, None when it
      throws. Every exception on the way (a null argument, a missing or
      malformed expiry) gives false. */
  function VerifyPasswordResetCode(email: Option<string>, code: Option<string>, claims: Option<ResetClaims>,
                                   parseTime: string -> Option<Instant>, now: Instant): (r: bool)
    ensures r <==> && claims.Some? && claims.value.expirationTime.Some?
                   && parseTime(claims.value.expirationTime.value).Some?
                   && email.Some? && claims.value.email == email
                   && code.Some? && claims.value.emailVerificationCode == code
                   && claims.value.tokenType == Some("PASSWORD_RESET")
                   && now < parseTime(claims.value.expirationTime.value).value
  {
    match claims
    case None => false
    case Some(c) =>
      match c.expirationTime
      case None => false
      case Some(text) =>
        match parseTime(text)
        case None => false
        case Some(expiry) =>
          if email.None? || code.None? then false
          else email == c.email && code == c.emailVerificationCode
               && c.tokenType == Some("PASSWORD_RESET") && now < expiry
  }

  /** The claims of a registration token. */
  datatype RegistrationClaims = RegistrationClaims(email: Option<string>, emailVerificationCode: Option<string>,
                                                   expirationTime: Option<string>)

  /** The claims of the token verifyEmail issues. */
  datatype VerifiedClaims = VerifiedClaims(email: Option<string>, emailVerificationCode: Option<string>,
                                           expirationTime: Instant, isEmailVerified: bool)

  /** verifyEmail: a new token marked verified when the entered code equals
      the token's code and the expiry lies strictly ahead; null (None) for a
      mismatch, an expired code, or any exception. Signing is left to the JWT
      library. */
  function VerifyEmail(claims: Option<RegistrationClaims>, input: Option<string>,
                       parseTime: string -> Option<Instant>, now: Instant): (r: Option<VerifiedClaims>)
    ensures r.Some? <==> && claims.Some? && claims.value.expirationTime.Some?
                         && parseTime(claims.value.expirationTime.value).Some?
                         && input.Some? && claims.value.emailVerificationCode == input
                         && now < parseTime(claims.value.expirationTime.value).value
    ensures r.Some? ==> r.value.isEmailVerified && r.value.email == claims.value.email
                        && r.value.emailVerificationCode == input
                        && r.value.expirationTime == parseTime(claims.value.expirationTime.value).value
  {
    match claims
    case None => None
    case Some(c) =>
      match c.expirationTime
      case None => None
      case Some(text) =>
        match parseTime(text)
        case None => None
        case Some(expiry) =>
          if input.None? then None
          else if input == c.emailVerificationCode && now < expiry then
            Some(VerifiedClaims(c.email, c.emailVerificationCode, expiry, true))
          else None
  }

  // ---------------------------------------------------------------------
  // The service methods on the repository
  // ---------------------------------------------------------------------

  method UnlockAccount(repo: UserRepository, email: string)
    requires repo.Valid()
    modifies repo
    ensures repo.Valid() && repo.nextId == old(repo.nextId)
    ensures repo.rows == UnlockStep(old(repo.rows), email)
  {
    var user := repo.FindByEmail(email);
    if user.Some? {
      repo.Update(user.value.(accountLocked := false, loginAttempts := 0, lockedUntil := None));
    }
  }

  method IncrementLoginAttempts(repo: UserRepository, email: string, now: Instant) returns (attempts: int)
    requires repo.Valid()
    modifies repo
    ensures repo.Valid() && repo.nextId == old(repo.nextId)
    ensures (attempts, repo.rows) == IncrementStep(old(repo.rows), email, now)
  {
    var user := repo.FindByEmail(email);
    if user.None? {
      return 0;
    }
    var u := user.value;
    attempts := u.loginAttempts + 1;
    var lockedUntil := if attempts >= MAX_LOGIN_ATTEMPTS then Some(now + LOCK_DURATION) else u.lockedUntil;
    repo.Update(u.(loginAttempts := attempts, lastLoginAttempt := Some(now),
                   accountLocked := attempts >= MAX_LOGIN_ATTEMPTS, lockedUntil := lockedUntil));
  }

  method IsAccountLocked(repo: UserRepository, email: string, now: Instant) returns (locked: bool)
    requires repo.Valid()
    modifies repo
    ensures repo.Valid() && repo.nextId == old(repo.nextId)
    ensures (locked, repo.rows) == LockCheck(old(repo.rows), email, now)
  {
    var user := repo.FindByEmail(email);
    if user.None? {
      return false;
    }
    if user.value.accountLocked && user.value.lockedUntil.Some? && now > user.value.lockedUntil.value {
      UnlockAccount(repo, email);
      return false;
    }
    locked := user.value.accountLocked;
  }

  /** updateUser runs in one transaction: on an exception the table is unchanged. */
  method UpdateUser(repo: UserRepository, email: string, dto: UserUpdate,
                    matches: (string, Option<string>) -> bool, encode: string -> string,
                    upload: Option<Result<string>>) returns (r: Result<UserRow>)
    requires repo.Valid()
    modifies repo
    ensures repo.Valid() && repo.nextId == old(repo.nextId)
    ensures r == UpdatedUser(old(repo.rows), email, dto, matches, encode, upload)
    ensures r.Ok? ==> repo.rows == old(repo.rows)[email := r.value]
    ensures r.Err? ==> repo.rows == old(repo.rows)
  {
    var user := repo.FindByEmail(email);
    if user.None? {
      return Err(IllegalArgument(USER_NOT_FOUND_MESSAGE));
    }
    var u := user.value;
    if dto.newPassword.Some? && matches(dto.newPassword.value, u.password) {
      return Err(IllegalArgument(SAME_PASSWORD_MESSAGE));
    }
    var url := u.profileImgUrl;
    if upload.Some? {
      if upload.value.Err? {
        return Err(upload.value.error);
      }
      url := Some(upload.value.value);
    }
    var password := if dto.newPassword.Some? then Some(encode(dto.newPassword.value)) else u.password;
    var updated := u.(password := password, name := dto.name.GetOr(u.name), profileImgUrl := url);
    repo.Update(updated);
    r := Ok(updated);
  }

  method DeactivateUser(repo: UserRepository, email: string) returns (r: Result<UserRow>)
    requires repo.Valid()
    modifies repo
    ensures repo.Valid() && repo.nextId == old(repo.nextId)
    ensures r == Deactivated(old(repo.rows), email)
    ensures r.Ok? ==> repo.rows == old(repo.rows)[email := r.value]
    ensures r.Err? ==> repo.rows == old(repo.rows)
  {
    var user := repo.FindByEmail(email);
    if user.None? {
      return Err(IllegalArgument(USER_NOT_FOUND_MESSAGE));
    }
    var updated := user.value.(status := INACTIVE);
    repo.Update(updated);
    r := Ok(updated);
  }

  method ActivateUser(repo: UserRepository, email: string) returns (r: Result<UserRow>)
    requires repo.Valid()
    modifies repo
    ensures repo.Valid() && repo.nextId == old(repo.nextId)
    ensures r == Activated(old(repo.rows), email)
    ensures r.Ok? ==> repo.rows == old(repo.rows)[email := r.value]
    ensures r.Err? ==> repo.rows == old(repo.rows)
  {
    var user := repo.FindByEmail(email);
    if user.None? {
      return Err(IllegalArgument(USER_NOT_FOUND_MESSAGE));
    }
    if user.value.status != INACTIVE {
      return Err(IllegalArgument(NOT_INACTIVE_MESSAGE));
    }
    var updated := user.value.(status := ACTIVE);
    repo.Update(updated);
    r := Ok(updated);
  }
}
