/** UserRepository: the users table keyed by its unique email column, with
    identity ids assigned on insert, and the cleanup query that removes
    expired unverified users. */
module UserRepo {
  import opened Common
  import opened UserEntity

  /** The rows the cleanup query deletes: still UNVERIFIED and with a
      verification expiry strictly before `now`. A null expiry compares as
      unknown in SQL, so such a row is never deleted. */
  predicate ExpiredUnverified(u: UserRow, now: Instant)
  {
    u.mailStatus == UNVERIFIED && u.emailVerificationExpiredAt.Some? && u.emailVerificationExpiredAt.value < now
  }

  /** The table after the cleanup query. */
  function CleanedUp(rows: map<string, UserRow>, now: Instant): (r: map<string, UserRow>)
    ensures forall e :: e in r <==> e in rows && !ExpiredUnverified(rows[e], now)
    ensures forall e :: e in r ==> r[e] == rows[e]
  {
    map e | e in rows && !ExpiredUnverified(rows[e], now) :: rows[e]
  }

  /** Running the cleanup twice at the same instant deletes nothing more. */
  lemma CleanupIdempotent(rows: map<string, UserRow>, now: Instant)
    ensures CleanedUp(CleanedUp(rows, now), now) == CleanedUp(rows, now)
  {
  }

  /** A later cleanup deletes at least what an earlier one deletes, and
      verified or registered users survive every cleanup. */
  lemma CleanupMonotone(rows: map<string, UserRow>, t1: Instant, t2: Instant)
    requires t1 <= t2
    ensures CleanedUp(rows, t2).Keys <= CleanedUp(rows, t1).Keys
    ensures forall e :: e in rows && rows[e].mailStatus != UNVERIFIED ==> e in CleanedUp(rows, t2)
  {
  }

  /** findById(id).isPresent(): some stored user carries the id. */
  predicate ExistsById(rows: map<string, UserRow>, id: nat)
  {
    exists e :: e in rows && rows[e].id == id
  }

  class UserRepository {
    /** The rows, keyed by email. */
    var rows: map<string, UserRow>
    /** The next identity value. */
    var nextId: nat

    /** Each row sits under its own email and ids are distinct and already issued. */
    ghost predicate Valid()
      reads this
    {
      && (forall e :: e in rows ==> rows[e].email == e && rows[e].id < nextId)
      && (forall e1, e2 :: e1 in rows && e2 in rows && e1 != e2 ==> rows[e1].id != rows[e2].id)
    }

    constructor ()
      ensures Valid() && rows == map[]
    {
      rows := map[];
      nextId := 1;
    }

    /** findByEmail. */
    function FindByEmail(email: string): (r: Option<UserRow>)
      reads this
      ensures r.Some? <==> email in rows
      ensures r.Some? ==> r.value == rows[email]
    {
      if email in rows then Some(rows[email]) else None
    }

    /** save of a row already stored: the row is replaced under the same id. */
    method Update(row: UserRow)
      requires Valid() && row.email in rows && rows[row.email].id == row.id
      modifies this
      ensures Valid()
      ensures rows == old(rows)[row.email := row] && nextId == old(nextId)
    {
      rows := rows[row.email := row];
    }

    /** save of a new row: it gets the next identity value, unless the email
        is already taken (a unique-constraint violation that changes nothing). */
    method Insert(row: UserRow) returns (r: Result<nat>)
      requires Valid()
      modifies this
      ensures Valid()
      ensures row.email in old(rows) ==> r.Err? && rows == old(rows) && nextId == old(nextId)
      ensures row.email !in old(rows) ==>
                r == Ok(old(nextId)) && rows == old(rows)[row.email := row.(id := old(nextId))]
    {
      if row.email in rows {
        r := Err(ConstraintViolation("users.email"));
      } else {
        r := Ok(nextId);
        rows := rows[row.email := row.(id := nextId)];
        nextId := nextId + 1;
      }
    }

    /** delete. */
    method Delete(email: string)
      requires Valid()
      modifies this
      ensures Valid()
      ensures rows == old(rows) - {email} && nextId == old(nextId)
    {
      rows := rows - {email};
    }

    /** deleteExpiredUsers(now). */
    method DeleteExpiredUsers(now: Instant)
      requires Valid()
      modifies this
      ensures Valid()
      ensures rows == CleanedUp(old(rows), now) && nextId == old(nextId)
    {
      rows := CleanedUp(rows, now);
    }
  }
}
