/** EmailService: sending a verification code.

    The decisions taken before the mail goes out are modelled: an already
    registered address is refused, an unverified one is replaced by a fresh
    temporary user holding a new code valid for fifteen minutes, and the mail
    sender is chosen by the address's domain. Math.random is the `random`
    parameter, the clock is `now`, and whether the mail server accepts the
    message is the `sendSucceeds` oracle. Every exception on the way is caught
    and reported as false. */
module EmailService {
  import opened Common
  import opened UserEntity
  import opened UserRepo

  /** How long a verification code stays valid. */
  const CODE_VALIDITY: int := 15 * MINUTE

  const UNSUPPORTED_DOMAIN_MESSAGE: string := "지원되지 않는 이메일 도메인입니다."

  datatype MailSender = GmailSender | NaverSender

  /** getMailSender: chosen by the address's suffix, gmail first. */
  function GetMailSender(email: string): (r: Result<MailSender>)
    ensures r == Ok(GmailSender) <==> EndsWith(email, "@gmail.com")
    ensures r == Ok(NaverSender) <==> !EndsWith(email, "@gmail.com") && EndsWith(email, "@naver.com")
    ensures r.Err? <==> !EndsWith(email, "@gmail.com") && !EndsWith(email, "@naver.com")
  {
    if EndsWith(email, "@gmail.com") then Ok(GmailSender)
    else if EndsWith(email, "@naver.com") then Ok(NaverSender)
    else Err(IllegalArgument(UNSUPPORTED_DOMAIN_MESSAGE))
  }

  /** generateVerificationCode: String.valueOf((int)(Math.random() * 1000000)),
      for a `random` in [0, 1). The code is the plain decimal rendering of a
      number in [0, 999999]: at most six digits, with no zero padding. */
  function VerificationCode(random: real): (r: string)
    requires 0.0 <= random < 1.0
    ensures 1 <= |r| <= 6 && AllDigits(r)
    ensures DigitsValue(r) <= 999999
    ensures r[0] == '0' ==> r == "0"
  {
    var n := (random * 1000000.0).Floor;
    assert 0 <= n < 1000000;
    assert Pow10(6) == 1000000;
    NatToStringLength(n, 6);
    NatToString(n)
  }

  /** Every number in [0, 999999] is the code for some random value, and a
      number below 100000 gives a code shorter than six characters. */
  lemma EveryCodeReachable(n: nat)
    requires n < 1000000
    ensures var random := n as real / 1000000.0;
            0.0 <= random < 1.0 && VerificationCode(random) == NatToString(n)
    ensures n < 100000 ==> |NatToString(n)| < 6
  {
    var random := n as real / 1000000.0;
    assert random * 1000000.0 == n as real;
    if n < 100000 {
      assert Pow10(5) == 100000;
      NatToStringLength(n, 5);
    }
  }

  /** The row of the temporary user createTemporaryUser builds, stored under `id`. */
  function TemporaryRow(id: nat, email: string, code: string, expiry: Instant): UserRow
  {
    UserRow(id, email, None, "ex", None, UNVERIFIED, Some(code), Some(expiry), ACTIVE, 0, false, None, None)
  }

  /** sendVerificationCode on the users table: whether it reports success, and
      the table afterwards. `id` is the identity the insert would assign. */
  function SendSpec(rows: map<string, UserRow>, id: nat, email: string, code: string, now: Instant,
                    sendSucceeds: bool): (r: (bool, map<string, UserRow>))
    // a registered address is refused and nothing is saved
    ensures email in rows && rows[email].mailStatus == REGISTERED ==> r == (false, rows)
    // a verified address makes the insert violate the unique email: nothing changes
    ensures email in rows && rows[email].mailStatus == VERIFIED ==> r == (false, rows)
    // otherwise the temporary user, with a code valid for fifteen minutes, replaces any unverified one
    ensures email !in rows || rows[email].mailStatus == UNVERIFIED ==>
              && email in r.1 && r.1[email] == TemporaryRow(id, email, code, now + CODE_VALIDITY)
              && r.1.Keys == rows.Keys + {email}
              && forall e :: e in rows && e != email ==> r.1[e] == rows[e]
    // true only once the mail has gone out through a supported sender
    ensures r.0 <==> (email !in rows || rows[email].mailStatus == UNVERIFIED)
                     && GetMailSender(email).Ok? && sendSucceeds
  {
    if email in rows && rows[email].mailStatus == REGISTERED then (false, rows)
    else
      var cleared := if email in rows && rows[email].mailStatus == UNVERIFIED then rows - {email} else rows;
      if email in cleared then (false, cleared)
      else
        var saved := cleared[email := TemporaryRow(id, email, code, now + CODE_VALIDITY)];
        match GetMailSender(email)
        case Err(_) => (false, saved)
        case Ok(_) => (sendSucceeds, saved)
  }

  /** An unsupported domain still leaves the temporary user saved: the sender
      is chosen only after the insert. */
  lemma UnsupportedDomainKeepsTemporaryUser(rows: map<string, UserRow>, id: nat, email: string, code: string,
                                            now: Instant, sendSucceeds: bool)
    requires email !in rows && GetMailSender(email).Err?
    ensures var r := SendSpec(rows, id, email, code, now, sendSucceeds);
            !r.0 && email in r.1 && r.1[email].mailStatus == UNVERIFIED
  {
  }

  method SendVerificationCode(repo: UserRepository, email: string, random: real, now: Instant,
                              sendSucceeds: bool) returns (sent: bool)
    requires repo.Valid() && 0.0 <= random < 1.0
    modifies repo
    ensures repo.Valid()
    ensures (sent, repo.rows) == SendSpec(old(repo.rows), old(repo.nextId), email,
                                          VerificationCode(random), now, sendSucceeds)
  {
    var existing := repo.FindByEmail(email);
    if existing.Some? {
      if existing.value.mailStatus == REGISTERED {
        return false;
      }
      if existing.value.mailStatus == UNVERIFIED {
        repo.Delete(email);
      }
    }
    var code := VerificationCode(random);
    var user := User.CreateTemporaryUser(Some(email), Some(code), Some(now + CODE_VALIDITY));
    var row := user.Row(0);
    assert row.value == TemporaryRow(0, email, code, now + CODE_VALIDITY);
    var id := repo.Insert(row.value);
    if id.Err? {
      return false;
    }
    var sender := GetMailSender(email);
    if sender.Err? {
      return false;
    }
    sent := sendSucceeds;
  }
}
