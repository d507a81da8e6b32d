/** OAuthAccountRepository: the oauth_accounts table, unique on
    (provider, provider_user_id). The table is keyed by that pair, so the
    constraint holds by construction; ids are identity values. */
module OAuthRepo {
  import opened Common

  /** The OAuthProvider values the service switches over. */
  datatype OAuthProvider = NAVER | KAKAO | GOOGLE

  datatype OAuthAccountRow = OAuthAccountRow(
    id: nat,
    userId: Option<nat>,
    provider: OAuthProvider,
    providerUserId: string,
    accessToken: Option<string>,
    refreshToken: Option<string>,
    tokenExpiresAt: Option<Instant>)

  type AccountKey = (OAuthProvider, string)

  function KeyOf(a: OAuthAccountRow): AccountKey
  {
    (a.provider, a.providerUserId)
  }

  class OAuthAccountRepository {
    var accounts: map<AccountKey, OAuthAccountRow>
    var nextId: nat

    /** Each row sits under its own (provider, providerUserId); ids are distinct and issued. */
    ghost predicate Valid()
      reads this
    {
      && (forall k :: k in accounts ==> KeyOf(accounts[k]) == k && accounts[k].id < nextId)
      && (forall k1, k2 :: k1 in accounts && k2 in accounts && k1 != k2 ==> accounts[k1].id != accounts[k2].id)
    }

    constructor ()
      ensures Valid() && accounts == map[]
    {
      accounts := map[];
      nextId := 1;
    }

    /** findByProviderAndProviderUserId; a null id matches nothing, the column being not null. */
    function FindByProviderAndProviderUserId(provider: OAuthProvider, providerUserId: Option<string>)
      : (r: Option<OAuthAccountRow>)
      reads this
      ensures r.Some? <==> providerUserId.Some? && (provider, providerUserId.value) in accounts
      ensures r.Some? ==> r.value == accounts[(provider, providerUserId.value)]
    {
      if providerUserId.Some? && (provider, providerUserId.value) in accounts
      then Some(accounts[(provider, providerUserId.value)]) else None
    }

    /** save of a row already stored. */
    method Update(row: OAuthAccountRow)
      requires Valid() && KeyOf(row) in accounts && accounts[KeyOf(row)].id == row.id
      modifies this
      ensures Valid()
      ensures accounts == old(accounts)[KeyOf(row) := row] && nextId == old(nextId)
    {
      accounts := accounts[KeyOf(row) := row];
    }

    /** save of a new row: refused when the pair is taken, else stored under the next id. */
    method Insert(row: OAuthAccountRow) returns (r: Result<nat>)
      requires Valid()
      modifies this
      ensures Valid()
      ensures KeyOf(row) in old(accounts) ==> r.Err? && accounts == old(accounts) && nextId == old(nextId)
      ensures KeyOf(row) !in old(accounts) ==>
                r == Ok(old(nextId)) && accounts == old(accounts)[KeyOf(row) := row.(id := old(nextId))]
                && nextId == old(nextId) + 1
    {
      if KeyOf(row) in accounts {
        r := Err(ConstraintViolation("oauth_accounts(provider, provider_user_id)"));
      } else {
        r := Ok(nextId);
        accounts := accounts[KeyOf(row) := row.(id := nextId)];
        nextId := nextId + 1;
      }
    }
  }
}
