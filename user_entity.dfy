/** The User entity and the row the user services read and write.

    The entity class keeps the fields User.java declares, each possibly null
    (an Option), and its three lifecycle mutators. The services additionally
    read and rebuild rows with a login counter, a lock and an account status;
    `UserRow` is that persisted row. */
module UserEntity {
  import opened Common

  /** The mail-verification lifecycle: UNVERIFIED -> VERIFIED -> REGISTERED. */
  datatype UserMailStatus = UNVERIFIED | VERIFIED | REGISTERED

  datatype UserStatus = ACTIVE | INACTIVE | DELETED

  /** A row of the users table as the services see it. */
  datatype UserRow = UserRow(
    id: nat,
    email: string,
    password: Option<string>,
    name: string,
    profileImgUrl: Option<string>,
    mailStatus: UserMailStatus,
    emailVerificationCode: Option<string>,
    emailVerificationExpiredAt: Option<Instant>,
    status: UserStatus,
    loginAttempts: int,
    accountLocked: bool,
    lockedUntil: Option<Instant>,
    lastLoginAttempt: Option<Instant>)

  class User {
    var email: Option<string>
    var password: Option<string>
    var name: Option<string>
    var profileImgUrl: Option<string>
    var mailStatus: Option<UserMailStatus>
    var emailVerificationCode: Option<string>
    var emailVerificationExpiredAt: Option<Instant>
    /** Declared final and initialised to ACTIVE: no constructor or mutator changes it. */
    const status: UserStatus := ACTIVE

    /** The builder constructor: every field exactly as passed, so a builder
        call without mailStatus stores null rather than the UNVERIFIED default. */
    constructor (email: Option<string>, password: Option<string>, name: Option<string>,
                 profileImageUrl: Option<string>, mailStatus: Option<UserMailStatus>,
                 emailVerificationCode: Option<string>, emailVerificationExpiredAt: Option<Instant>)
      ensures this.email == email && this.password == password && this.name == name
      ensures this.profileImgUrl == profileImageUrl && this.mailStatus == mailStatus
      ensures this.emailVerificationCode == emailVerificationCode
      ensures this.emailVerificationExpiredAt == emailVerificationExpiredAt
      ensures status == ACTIVE
    {
      this.email := email;
      this.password := password;
      this.name := name;
      this.profileImgUrl := profileImageUrl;
      this.mailStatus := mailStatus;
      this.emailVerificationCode := emailVerificationCode;
      this.emailVerificationExpiredAt := emailVerificationExpiredAt;
    }

    /** A user waiting for mail verification: UNVERIFIED, holding the code and
        its expiry, with no password or profile image and the placeholder name "ex". */
    static method CreateTemporaryUser(email: Option<string>, verificationCode: Option<string>,
                                      expirationTime: Option<Instant>) returns (u: User)
      ensures fresh(u)
      ensures u.email == email && u.mailStatus == Some(UNVERIFIED)
      ensures u.emailVerificationCode == verificationCode
      ensures u.emailVerificationExpiredAt == expirationTime
      ensures u.password.None? && u.profileImgUrl.None? && u.name == Some("ex")
      ensures u.status == ACTIVE
    {
      u := new User(email, None, Some("ex"), None, Some(UNVERIFIED), verificationCode, expirationTime);
    }

    /** VERIFIED, with the code and its expiry cleared; nothing else changes. */
    method CompleteEmailVerification()
      modifies this
      ensures mailStatus == Some(VERIFIED)
      ensures emailVerificationCode.None? && emailVerificationExpiredAt.None?
      ensures email == old(email) && password == old(password) && name == old(name)
      ensures profileImgUrl == old(profileImgUrl)
    {
      mailStatus := Some(VERIFIED);
      emailVerificationCode := None;
      emailVerificationExpiredAt := None;
    }

    /** REGISTERED, with password, name and profile image replaced; the email
        and the verification fields are untouched. */
    method CompleteRegistration(password: Option<string>, name: Option<string>, profileImgUrl: Option<string>)
      modifies this
      ensures mailStatus == Some(REGISTERED)
      ensures this.password == password && this.name == name && this.profileImgUrl == profileImgUrl
      ensures email == old(email)
      ensures emailVerificationCode == old(emailVerificationCode)
      ensures emailVerificationExpiredAt == old(emailVerificationExpiredAt)
    {
      mailStatus := Some(REGISTERED);
      this.password := password;
      this.name := name;
      this.profileImgUrl := profileImgUrl;
    }

    /** The row an insert of this entity stores under `id`: none when a
        not-null column (email, name, mailStatus) is null. A new row starts
        with no failed logins and no lock. */
    function Row(id: nat): (r: Option<UserRow>)
      reads this
      ensures r.Some? <==> email.Some? && name.Some? && mailStatus.Some?
      ensures r.Some? ==> r.value.email == email.value && r.value.name == name.value
                          && r.value.mailStatus == mailStatus.value && r.value.id == id
                          && r.value.password == password && r.value.profileImgUrl == profileImgUrl
                          && r.value.emailVerificationCode == emailVerificationCode
                          && r.value.emailVerificationExpiredAt == emailVerificationExpiredAt
      ensures r.Some? ==> r.value.status == ACTIVE && r.value.loginAttempts == 0
                          && !r.value.accountLocked && r.value.lockedUntil.None?
                          && r.value.lastLoginAttempt.None?
    {
      if email.None? || name.None? || mailStatus.None? then None
      else Some(UserRow(id, email.value, password, name.value, profileImgUrl, mailStatus.value,
                        emailVerificationCode, emailVerificationExpiredAt, status, 0, false, None, None))
    }
  }

  /** The steps of the lifecycle in order: a temporary user is verified, then
      registered. The email survives every step and the verification code is
      gone once verified. */
  method Lifecycle(email: string, code: string, expiry: Instant, password: string, name: string)
    returns (u: User)
    ensures fresh(u)
    ensures u.email == Some(email) && u.mailStatus == Some(REGISTERED)
    ensures u.emailVerificationCode.None? && u.emailVerificationExpiredAt.None?
    ensures u.password == Some(password) && u.name == Some(name) && u.profileImgUrl.None?
    ensures u.Row(0).Some?
  {
    u := User.CreateTemporaryUser(Some(email), Some(code), Some(expiry));
    assert u.Row(0).Some? && u.Row(0).value.mailStatus == UNVERIFIED;
    u.CompleteEmailVerification();
    u.CompleteRegistration(Some(password), Some(name), None);
  }
}
