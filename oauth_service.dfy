/** OAuthService: authorisation URLs, the token-response check, the
    per-provider profile extraction and the account-linking rules.

    The HTTP exchanges are oracles: the token endpoint's body and the profile
    endpoint's body are parameters (None for a null body), the state value is
    the UUID the caller drew, and the clock is `now`. */
module OAuthService {
  import opened Common
  import opened UserEntity
  import opened UserRepo
  import opened OAuthRepo

  /** The injected settings of one provider. */
  datatype ProviderConfig = ProviderConfig(clientId: string, clientSecret: string, redirectUri: string,
                                           tokenUrl: string, authUrl: string)

  datatype OAuthConfig = OAuthConfig(naver: ProviderConfig, kakao: ProviderConfig, google: ProviderConfig)

  function ConfigOf(cfg: OAuthConfig, provider: OAuthProvider): ProviderConfig
  {
    match provider
    case NAVER => cfg.naver
    case KAKAO => cfg.kakao
    case GOOGLE => cfg.google
  }

  const GOOGLE_SCOPE: string :=
    "https://www.googleapis.com/auth/userinfo.email https://www.googleapis.com/auth/userinfo.profile"

  // ---------------------------------------------------------------------
  // generateAuthUrl
  // ---------------------------------------------------------------------

  /** The query parameters of the authorisation URL, in order. Values are
      appended as they are, without encoding. */
  function AuthParams(provider: OAuthProvider, c: ProviderConfig, state: string): (r: seq<(string, string)>)
    ensures ("response_type", "code") in r && ("client_id", c.clientId) in r && ("redirect_uri", c.redirectUri) in r
    ensures provider != KAKAO ==> ("state", state) in r
    ensures (forall i :: 0 <= i < |r| ==> r[i].0 != "state") <==> provider == KAKAO
    ensures ("access_type", "offline") in r <==> provider == GOOGLE
    ensures ("prompt", "consent") in r <==> provider == GOOGLE
  {
    match provider
    case NAVER =>
      [("response_type", "code"), ("client_id", c.clientId), ("redirect_uri", c.redirectUri), ("state", state)]
    case KAKAO =>
      [("response_type", "code"), ("client_id", c.clientId), ("redirect_uri", c.redirectUri)]
    case GOOGLE =>
      [("client_id", c.clientId), ("redirect_uri", c.redirectUri), ("response_type", "code"),
       ("scope", GOOGLE_SCOPE), ("state", state), ("access_type", "offline"), ("prompt", "consent")]
  }

  /** Each parameter as "key=value". */
  function Pairs(params: seq<(string, string)>): (r: seq<string>)
    ensures |r| == |params| && forall i :: 0 <= i < |params| ==> r[i] == params[i].0 + "=" + params[i].1
  {
    seq(|params|, i requires 0 <= i < |params| => params[i].0 + "=" + params[i].1)
  }

  /** "k1=v1&k2=v2...". */
  function Query(params: seq<(string, string)>): string
  {
    Join("&", Pairs(params))
  }

  /** generateAuthUrl: the provider's auth URL, '?', then the parameters. */
  function AuthUrl(provider: OAuthProvider, cfg: OAuthConfig, state: string): string
  {
    ConfigOf(cfg, provider).authUrl + "?" + Query(AuthParams(provider, ConfigOf(cfg, provider), state))
  }

  /** The Kakao URL spelled out: three parameters and no state. */
  lemma KakaoAuthUrl(cfg: OAuthConfig, state: string)
    ensures AuthUrl(KAKAO, cfg, state) ==
            cfg.kakao.authUrl + "?" + Join("&", ["response_type=code", "client_id=" + cfg.kakao.clientId,
                                                 "redirect_uri=" + cfg.kakao.redirectUri])
  {
    var c := cfg.kakao;
    var ps := AuthParams(KAKAO, c, state);
    assert ps == [("response_type", "code"), ("client_id", c.clientId), ("redirect_uri", c.redirectUri)];
    assert "client_id" + "=" == "client_id=" && "redirect_uri" + "=" == "redirect_uri=";
    assert ps[0].0 + "=" + ps[0].1 == "response_type=code";
    assert Pairs(ps)[1] == "client_id=" + c.clientId && Pairs(ps)[2] == "redirect_uri=" + c.redirectUri;
    assert Pairs(ps) == ["response_type=code", "client_id=" + c.clientId, "redirect_uri=" + c.redirectUri];
  }

  /** The Naver URL spelled out: the state comes last. */
  lemma NaverAuthUrl(cfg: OAuthConfig, state: string)
    ensures AuthUrl(NAVER, cfg, state) ==
            cfg.naver.authUrl + "?" + Join("&", ["response_type=code", "client_id=" + cfg.naver.clientId,
                                                 "redirect_uri=" + cfg.naver.redirectUri, "state=" + state])
  {
    var c := cfg.naver;
    var ps := AuthParams(NAVER, c, state);
    assert ps == [("response_type", "code"), ("client_id", c.clientId), ("redirect_uri", c.redirectUri), ("state", state)];
    assert "client_id" + "=" == "client_id=" && "redirect_uri" + "=" == "redirect_uri=" && "state" + "=" == "state=";
    assert ps[0].0 + "=" + ps[0].1 == "response_type=code";
    assert Pairs(ps)[1] == "client_id=" + c.clientId && Pairs(ps)[2] == "redirect_uri=" + c.redirectUri;
    assert Pairs(ps)[3] == "state=" + state;
    assert Pairs(ps) == ["response_type=code", "client_id=" + c.clientId, "redirect_uri=" + c.redirectUri, "state=" + state];
  }

  // ---------------------------------------------------------------------
  // Token responses
  // ---------------------------------------------------------------------

  function ProviderTitle(provider: OAuthProvider): string
  {
    match provider
    case NAVER => "Naver"
    case KAKAO => "Kakao"
    case GOOGLE => "Google"
  }

  function ProviderName(provider: OAuthProvider): string
  {
    match provider
    case NAVER => "NAVER"
    case KAKAO => "KAKAO"
    case GOOGLE => "GOOGLE"
  }

  /** (String) m.get(key): null when absent or null, the text for a string,
      a ClassCastException for anything else. */
  function StringField(m: map<string, Json>, key: string): (r: Result<Option<string>>)
    ensures key !in m ==> r == Ok(None)
    ensures r == Ok(None) <==> key !in m || m[key] == JNull
    ensures r.Ok? && r.value.Some? <==> key in m && m[key].JStr?
    ensures r.Ok? && r.value.Some? ==> m[key] == JStr(r.value.value)
  {
    if key !in m then Ok(None)
    else match m[key]
      case JNull => Ok(None)
      case JStr(s) => Ok(Some(s))
      case _ => Err(ClassCast)
  }

  /** (String) m.getOrDefault(key, default): the default only when the key is
      absent; a key present with null gives null. */
  function StringFieldOr(m: map<string, Json>, key: string, default: string): (r: Result<Option<string>>)
    ensures key !in m ==> r == Ok(Some(default))
    ensures key in m ==> r == StringField(m, key)
  {
    if key !in m then Ok(Some(default)) else StringField(m, key)
  }

  /** (Map) m.get(key) followed by a call on it: a null throws NullPointerException. */
  function MapField(m: map<string, Json>, key: string): (r: Result<map<string, Json>>)
    ensures r.Ok? <==> key in m && m[key].JObj?
    ensures r.Ok? ==> m[key] == JObj(r.value)
  {
    if key !in m then Err(NullPointer)
    else match m[key]
      case JObj(fields) => Ok(fields)
      case JNull => Err(NullPointer)
      case _ => Err(ClassCast)
  }

  /** The access token from the token endpoint's body: a null body, or one
      without "access_token", throws RuntimeException for every provider. */
  function AccessTokenFrom(provider: OAuthProvider, body: Option<map<string, Json>>): (r: Result<Option<string>>)
    ensures body.None? || "access_token" !in body.value ==>
              r == Err(RuntimeFailure("Failed to fetch access token for " + ProviderTitle(provider)))
    ensures body.Some? && "access_token" in body.value && body.value["access_token"].JStr? ==>
              r == Ok(Some(body.value["access_token"].s))
  {
    if body.None? || "access_token" !in body.value then
      Err(RuntimeFailure("Failed to fetch access token for " + ProviderTitle(provider)))
    else StringField(body.value, "access_token")
  }

  // ---------------------------------------------------------------------
  // Profile extraction
  // ---------------------------------------------------------------------

  /** What saveOrUpdateUser reads from a profile. */
  datatype Profile = Profile(providerUserId: Option<string>, email: Option<string>,
                             name: Option<string>, profileImgUrl: Option<string>)

  const KAKAO_EMAIL: string := "Email not provided"
  const NAVER_DEFAULT_NAME: string := "Naver User"
  const GOOGLE_DEFAULT_NAME: string := "Google User"
  const DEFAULT_PROFILE_IMG: string := "default-profile-img-url"

  /** String.valueOf(Object) on a JSON value; `show` renders the values whose
      Java toString the model does not spell out (fractions, lists, maps). */
  function ValueOf(v: Option<Json>, show: Json -> string): string
  {
    match v
    case None => "null"
    case Some(JNull) => "null"
    case Some(JStr(s)) => s
    case Some(JNum(n)) => IntToString(n)
    case Some(JBool(b)) => if b then "true" else "false"
    case Some(other) => show(other)
  }

  /** The provider switch of saveOrUpdateUser. */
  function ExtractProfile(provider: OAuthProvider, body: map<string, Json>, show: Json -> string): (r: Result<Profile>)
    ensures provider == KAKAO && r.Ok? ==> r.value.email == Some(KAKAO_EMAIL) && r.value.providerUserId.Some?
    ensures provider == NAVER && r.Ok? ==>
              "response" in body && body["response"].JObj? && StringField(body["response"].fields, "email") == Ok(r.value.email)
    ensures provider == GOOGLE && r.Ok? ==> StringField(body, "email") == Ok(r.value.email)
  {
    match provider
    case NAVER =>
      var response :- MapField(body, "response");
      var id :- StringField(response, "id");
      var name :- StringFieldOr(response, "name", NAVER_DEFAULT_NAME);
      var email :- StringField(response, "email");
      var image :- StringFieldOr(response, "profile_image", DEFAULT_PROFILE_IMG);
      Ok(Profile(id, email, name, image))
    case KAKAO =>
      var id := ValueOf(if "id" in body then Some(body["id"]) else None, show);
      var account :- MapField(body, "kakao_account");
      var profile :- MapField(account, "profile");
      var name :- StringField(profile, "nickname");
      var image :- StringField(profile, "profile_image_url");
      Ok(Profile(Some(id), Some(KAKAO_EMAIL), name, image))
    case GOOGLE =>
      var id :- StringField(body, "sub");
      var email :- StringField(body, "email");
      var name :- StringFieldOr(body, "name", GOOGLE_DEFAULT_NAME);
      var image :- StringFieldOr(body, "picture", DEFAULT_PROFILE_IMG);
      Ok(Profile(id, email, name, image))
  }

  /** Naver and Google fill in a missing name and picture with their defaults. */
  lemma ProfileDefaults(body: map<string, Json>, show: Json -> string)
    ensures "response" in body && body["response"].JObj?
            && "id" !in body["response"].fields && "email" !in body["response"].fields
            && "name" !in body["response"].fields && "profile_image" !in body["response"].fields ==>
              ExtractProfile(NAVER, body, show) == Ok(Profile(None, None, Some("Naver User"), Some("default-profile-img-url")))
    ensures "sub" !in body && "email" !in body && "name" !in body && "picture" !in body ==>
              ExtractProfile(GOOGLE, body, show) == Ok(Profile(None, None, Some("Google User"), Some("default-profile-img-url")))
  {
  }

  // ---------------------------------------------------------------------
  // saveOrUpdateUser
  // ---------------------------------------------------------------------

  /** The builder arguments of the user created for a new account. */
  datatype NewUserDraft = NewUserDraft(email: Option<string>, name: Option<string>,
                                       profileImgUrl: Option<string>, emailVerified: bool)

  /** The new user's emailVerified flag holds iff an email is present and non-empty. */
  function DraftFor(p: Profile): (d: NewUserDraft)
    ensures d.emailVerified <==> p.email.Some? && p.email.value != ""
    ensures d.email == p.email && d.name == p.name && d.profileImgUrl == p.profileImgUrl
  {
    NewUserDraft(p.email, p.name, p.profileImgUrl, p.email.Some? && p.email.value != "")
  }

  /** What saving the drafted user gives: the builder leaves mailStatus null
      (it is not among the arguments, and the builder does not apply the
      field's UNVERIFIED default), which the not-null column refuses. */
  const NEW_USER_REJECTED: Exception := ConstraintViolation("users.mail_status")

  /** saveOrUpdateUser on both tables: the tables afterwards, or the
      exception. An existing (provider, id) account only gets the new token
      and an expiry one hour ahead. Otherwise the account links to the user
      found by email; when there is none, creating one fails. */
  function SaveOrUpdateSpec(users: map<string, UserRow>, accounts: map<AccountKey, OAuthAccountRow>, nextId: nat,
                            provider: OAuthProvider, p: Profile, token: Option<string>, now: Instant)
    : (r: Result<(map<string, UserRow>, map<AccountKey, OAuthAccountRow>)>)
    // users are never created or changed
    ensures r.Ok? ==> r.value.0 == users
    // an existing account: only its token and expiry change
    ensures p.providerUserId.Some? && (provider, p.providerUserId.value) in accounts ==>
              var k := (provider, p.providerUserId.value);
              && r.Ok? && r.value.1.Keys == accounts.Keys
              && r.value.1[k] == accounts[k].(accessToken := token, tokenExpiresAt := Some(now + HOUR))
              && forall k2 :: k2 in accounts && k2 != k ==> r.value.1[k2] == accounts[k2]
    // a new account: exactly one row, linked to the user with that email
    ensures !(p.providerUserId.Some? && (provider, p.providerUserId.value) in accounts) ==>
              (r.Ok? <==> p.email.Some? && p.email.value in users && p.providerUserId.Some?)
    ensures !(p.providerUserId.Some? && (provider, p.providerUserId.value) in accounts) && r.Ok? ==>
              var k := (provider, p.providerUserId.value);
              && r.value.1 == accounts[k := OAuthAccountRow(nextId, Some(users[p.email.value].id), provider,
                                                            p.providerUserId.value, token, None, Some(now + HOUR))]
    ensures (!(p.providerUserId.Some? && (provider, p.providerUserId.value) in accounts) &&
             (p.email.None? || p.email.value !in users)) ==> r == Err(NEW_USER_REJECTED)
  {
    if p.providerUserId.Some? && (provider, p.providerUserId.value) in accounts then
      var k := (provider, p.providerUserId.value);
      Ok((users, accounts[k := accounts[k].(accessToken := token, tokenExpiresAt := Some(now + HOUR))]))
    else
      if p.email.None? || p.email.value !in users then Err(NEW_USER_REJECTED)
      else if p.providerUserId.None? then Err(ConstraintViolation("oauth_accounts.provider_user_id"))
      else
        var user := users[p.email.value];
        Ok((users, accounts[(provider, p.providerUserId.value) :=
                              OAuthAccountRow(nextId, Some(user.id), provider, p.providerUserId.value,
                                              token, None, Some(now + HOUR))]))
  }

  /** The user saveOrUpdateUser evidently means to create for a new account:
      the profile's email, name and picture, and the mailStatus field's
      UNVERIFIED default, which the builder constructor overwrites. */
  function IntendedNewUser(id: nat, email: string, name: string, p: Profile): (u: UserRow)
    ensures u.id == id && u.email == email && u.name == name && u.profileImgUrl == p.profileImgUrl
    ensures u.mailStatus == UNVERIFIED && u.status == ACTIVE && u.password.None?
  {
    UserRow(id, email, None, name, p.profileImgUrl, UNVERIFIED, None, None, ACTIVE, 0, false, None, None)
  }

  /** Both tables, the next user id, and what the call returns: saving the
      new user is not undone when the account insert fails afterwards. */
  datatype SaveState = SaveState(users: map<string, UserRow>, nextUserId: nat,
                                 accounts: map<AccountKey, OAuthAccountRow>, result: Result<()>)

  /** saveOrUpdateUser with the new user stored as intended: an existing
      account and an existing user are handled as in SaveOrUpdateSpec;
      otherwise a user is created (refused only by the not-null email and
      name columns) and the new account is linked to it. */
  function SaveOrUpdateIntended(users: map<string, UserRow>, nextUserId: nat,
                                accounts: map<AccountKey, OAuthAccountRow>, nextId: nat,
                                provider: OAuthProvider, p: Profile, token: Option<string>, now: Instant)
    : (r: SaveState)
    // wherever the written code does not create a user, both agree
    ensures (p.providerUserId.Some? && (provider, p.providerUserId.value) in accounts)
            || (p.email.Some? && p.email.value in users) ==>
              var w := SaveOrUpdateSpec(users, accounts, nextId, provider, p, token, now);
              && r.nextUserId == nextUserId
              && (w.Ok? ==> r == SaveState(w.value.0, nextUserId, w.value.1, Ok(())))
              && (w.Err? ==> r == SaveState(users, nextUserId, accounts, w.PropagateFailure()))
    // an unknown email with a name: the user is created with the next id
    ensures !(p.providerUserId.Some? && (provider, p.providerUserId.value) in accounts)
            && p.email.Some? && p.email.value !in users && p.name.Some? ==>
              && r.users == users[p.email.value := IntendedNewUser(nextUserId, p.email.value, p.name.value, p)]
              && r.nextUserId == nextUserId + 1
    // a new account is stored exactly when its user could be found or created
    ensures !(p.providerUserId.Some? && (provider, p.providerUserId.value) in accounts) ==>
              (r.result.Ok? <==> p.email.Some? && (p.email.value in users || p.name.Some?) && p.providerUserId.Some?)
    ensures r.result.Err? ==> r.accounts == accounts
  {
    if (p.providerUserId.Some? && (provider, p.providerUserId.value) in accounts)
       || (p.email.Some? && p.email.value in users) then
      var w := SaveOrUpdateSpec(users, accounts, nextId, provider, p, token, now);
      if w.Ok? then SaveState(w.value.0, nextUserId, w.value.1, Ok(()))
      else SaveState(users, nextUserId, accounts, w.PropagateFailure())
    else if p.email.None? then SaveState(users, nextUserId, accounts, Err(ConstraintViolation("users.email")))
    else if p.name.None? then SaveState(users, nextUserId, accounts, Err(ConstraintViolation("users.name")))
    else
      var users' := users[p.email.value := IntendedNewUser(nextUserId, p.email.value, p.name.value, p)];
      if p.providerUserId.None? then
        SaveState(users', nextUserId + 1, accounts, Err(ConstraintViolation("oauth_accounts.provider_user_id")))
      else
        SaveState(users', nextUserId + 1,
                  accounts[(provider, p.providerUserId.value) :=
                             OAuthAccountRow(nextId, Some(nextUserId), provider, p.providerUserId.value,
                                             token, None, Some(now + HOUR))],
                  Ok(()))
  }

  /** A first login with a new email: the written code refuses it, the
      intended one creates an UNVERIFIED user and links the account to it. */
  lemma NewUserIsCreatedAndLinked(users: map<string, UserRow>, nextUserId: nat,
                                  accounts: map<AccountKey, OAuthAccountRow>, nextId: nat,
                                  provider: OAuthProvider, p: Profile, token: Option<string>, now: Instant)
    requires p.providerUserId.Some? && (provider, p.providerUserId.value) !in accounts
    requires p.email.Some? && p.email.value !in users && p.name.Some?
    ensures SaveOrUpdateSpec(users, accounts, nextId, provider, p, token, now) == Err(NEW_USER_REJECTED)
    ensures var r := SaveOrUpdateIntended(users, nextUserId, accounts, nextId, provider, p, token, now);
            && r.result == Ok(())
            && r.users[p.email.value].mailStatus == UNVERIFIED
            && r.users[p.email.value].id == nextUserId
            && r.accounts[(provider, p.providerUserId.value)].userId == Some(nextUserId)
            && r.accounts.Keys == accounts.Keys + {(provider, p.providerUserId.value)}
  {
  }

  /** Every Kakao profile carries the same placeholder email, so new Kakao
      accounts, whatever their ids, all link to the one user holding it. */
  lemma KakaoAccountsShareUser(users: map<string, UserRow>, accounts: map<AccountKey, OAuthAccountRow>, nextId: nat,
                               b1: map<string, Json>, b2: map<string, Json>, show: Json -> string,
                               token: Option<string>, now: Instant)
    requires ExtractProfile(KAKAO, b1, show).Ok? && ExtractProfile(KAKAO, b2, show).Ok?
    requires var p1 := ExtractProfile(KAKAO, b1, show).value;
             var p2 := ExtractProfile(KAKAO, b2, show).value;
             (KAKAO, p1.providerUserId.value) !in accounts && (KAKAO, p2.providerUserId.value) !in accounts
    ensures var p1 := ExtractProfile(KAKAO, b1, show).value;
            var p2 := ExtractProfile(KAKAO, b2, show).value;
            var r1 := SaveOrUpdateSpec(users, accounts, nextId, KAKAO, p1, token, now);
            var r2 := SaveOrUpdateSpec(users, accounts, nextId, KAKAO, p2, token, now);
            && (r1.Ok? <==> KAKAO_EMAIL in users) && (r2.Ok? <==> KAKAO_EMAIL in users)
            && (r1.Ok? ==> r1.value.1[(KAKAO, p1.providerUserId.value)].userId ==
                           r2.value.1[(KAKAO, p2.providerUserId.value)].userId == Some(users[KAKAO_EMAIL].id))
  {
  }

  /** handleCallback: token, profile, then saveOrUpdateUser. */
  function CallbackSpec(users: map<string, UserRow>, accounts: map<AccountKey, OAuthAccountRow>, nextId: nat,
                        provider: OAuthProvider, tokenBody: Option<map<string, Json>>,
                        profileBody: Option<map<string, Json>>, show: Json -> string, now: Instant)
    : (r: Result<(map<string, UserRow>, map<AccountKey, OAuthAccountRow>)>)
    ensures tokenBody.None? ==> r == Err(RuntimeFailure("Failed to fetch access token for " + ProviderTitle(provider)))
    ensures AccessTokenFrom(provider, tokenBody).Ok? && profileBody.None? ==>
              r == Err(RuntimeFailure("Failed to fetch user profile for " + ProviderName(provider)))
    ensures r.Ok? ==> r.value.0 == users && accounts.Keys <= r.value.1.Keys
  {
    var token :- AccessTokenFrom(provider, tokenBody);
    var body :- if profileBody.None? then Err(RuntimeFailure("Failed to fetch user profile for " + ProviderName(provider)))
                else Ok(profileBody.value);
    var profile :- ExtractProfile(provider, body, show);
    SaveOrUpdateSpec(users, accounts, nextId, provider, profile, token, now)
  }

  /** The service method: the repositories change as CallbackSpec says, and
      not at all when it throws (every write is the last step of its path). */
  method HandleCallback(userRepo: UserRepository, accountRepo: OAuthAccountRepository, provider: OAuthProvider,
                        tokenBody: Option<map<string, Json>>, profileBody: Option<map<string, Json>>,
                        show: Json -> string, now: Instant) returns (r: Result<()>)
    requires userRepo.Valid() && accountRepo.Valid()
    modifies userRepo, accountRepo
    ensures userRepo.Valid() && accountRepo.Valid()
    ensures var spec := CallbackSpec(old(userRepo.rows), old(accountRepo.accounts), old(accountRepo.nextId),
                                     provider, tokenBody, profileBody, show, now);
            && (r.Ok? <==> spec.Ok?)
            && (spec.Ok? ==> userRepo.rows == spec.value.0 && accountRepo.accounts == spec.value.1)
            && (spec.Err? ==> r.error == spec.error && userRepo.rows == old(userRepo.rows)
                              && accountRepo.accounts == old(accountRepo.accounts))
  {
    var token := AccessTokenFrom(provider, tokenBody);
    if token.Err? {
      return Err(token.error);
    }
    if profileBody.None? {
      return Err(RuntimeFailure("Failed to fetch user profile for " + ProviderName(provider)));
    }
    var profile := ExtractProfile(provider, profileBody.value, show);
    if profile.Err? {
      return Err(profile.error);
    }
    var p := profile.value;
    var existing := accountRepo.FindByProviderAndProviderUserId(provider, p.providerUserId);
    if existing.Some? {
      accountRepo.Update(existing.value.(accessToken := token.value, tokenExpiresAt := Some(now + HOUR)));
      return Ok(());
    }
    var found := if p.email.Some? then userRepo.FindByEmail(p.email.value) else None;
    if found.None? {
      var draft := DraftFor(p);
      var newUser := new User(draft.email, None, draft.name, draft.profileImgUrl, None, None, None);
      var row := newUser.Row(0);
      assert row.None?;
      return Err(NEW_USER_REJECTED);
    }
    if p.providerUserId.None? {
      return Err(ConstraintViolation("oauth_accounts.provider_user_id"));
    }
    var inserted := accountRepo.Insert(OAuthAccountRow(0, Some(found.value.id), provider, p.providerUserId.value,
                                                       token.value, None, Some(now + HOUR)));
    r := Ok(());
  }
}
