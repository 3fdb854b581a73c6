/** The stateful half of `src/utils/auth.ts`: writing, reading and removing
    the session in the cookie jar and localStorage, and mirroring it into the
    user store. */
module AuthToken {
  import opened Wrappers
  import opened Stores

  /** What `setToken` is given (`DataInfo<Date>`), with the expiry already
      turned into milliseconds since the epoch (`new Date(expires).getTime()`). */
  datatype TokenData = TokenData(
    accessToken: string,
    expires: int,
    refreshToken: Option<string>,
    avatar: Option<string>,
    username: Option<string>,
    nickname: Option<string>,
    roles: Option<seq<string>>,
    permissions: Option<seq<string>>)

  /** `data.username && data.roles`: a non-empty user name and a role list
      (any list, even an empty one, is truthy). */
  predicate IsFullPayload(data: TokenData) {
    data.username.Some? && data.username.value != "" && data.roles.Some?
  }

  /** The `authorized-token` cookie: the envelope, living `expires - now`
      milliseconds when the expiry is positive, else for the browser session. */
  function TokenCookie(data: TokenData, now: int): (c: Cookie)
    ensures c.value == TokenEnvelope(data.accessToken, data.expires)
    ensures c.ttl.SessionScoped? <==> data.expires <= 0
    ensures data.expires > 0 ==> c.ttl == ExpiresInMs(data.expires - now)
    ensures BornExpired(c.ttl) <==> 0 < data.expires <= now
  {
    Cookie(TokenEnvelope(data.accessToken, data.expires),
           if data.expires > 0 then ExpiresInMs(data.expires - now) else SessionScoped)
  }

  /** The `multiple-tabs` cookie: `loginDay` days when remembered, else for
      the browser session. */
  function TabsCookie(isRemembered: bool, loginDay: int): (c: Cookie)
    ensures c.value == Text("true")
    ensures BornExpired(c.ttl) <==> isRemembered && loginDay <= 0
  {
    Cookie(Text("true"), if isRemembered then ExpiresInDays(loginDay) else SessionScoped)
  }

  /** What `setUserKey` is called with: the access token to persist and
      the profile. */
  datatype Session = Session(accessToken: string, profile: Profile)

  /** The session `setToken` settles on. A full payload overwrites
      everything, defaulting a missing avatar or nickname to "" and missing
      permissions to []. Otherwise the persisted profile is kept, and so is
      the persisted access token unless it is empty. */
  function Reconcile(data: TokenData, local: map<string, StoredUser>): (s: Session)
    ensures IsFullPayload(data) ==>
              s == Session(data.accessToken,
                           Profile(data.avatar.GetOr(""), data.username.value,
                                   data.nickname.GetOr(""), data.roles.value,
                                   data.permissions.GetOr([])))
    ensures !IsFullPayload(data) ==> s.profile == StoredProfile(local)
    ensures !IsFullPayload(data) ==>
              s.accessToken == (if StoredAccessToken(local) != "" then StoredAccessToken(local)
                                else data.accessToken)
  {
    if IsFullPayload(data) then
      Session(data.accessToken,
              Profile(data.avatar.GetOr(""), data.username.value, data.nickname.GetOr(""),
                      data.roles.value, data.permissions.GetOr([])))
    else
      var stored := StoredAccessToken(local);
      Session(if stored != "" then stored else data.accessToken, StoredProfile(local))
  }

  /** The `user-info` record `setUserKey` writes: every field present. */
  function Persisted(s: Session, expires: int): StoredUser {
    StoredUser(Some(s.accessToken), Some(expires), Some(s.profile.avatar),
               Some(s.profile.username), Some(s.profile.nickname),
               Some(s.profile.roles), Some(s.profile.permissions))
  }

  /** Reading the persisted record back gives the session that was written:
      the `?? default` fallbacks never fire on it. */
  lemma PersistedReadsBack(s: Session, expires: int, local: map<string, StoredUser>)
    ensures StoredProfile(local[UserKey := Persisted(s, expires)]) == s.profile
    ensures StoredAccessToken(local[UserKey := Persisted(s, expires)]) == s.accessToken
  {
  }

  /** A partial update right after a full login keeps the login's profile
      and, when the login's token was not empty, the login's access token in
      localStorage (the new token only reaches the cookie). */
  lemma RefreshAfterLoginKeepsSession(login: TokenData, refresh: TokenData,
                                         local: map<string, StoredUser>)
    requires IsFullPayload(login) && login.accessToken != ""
    requires !IsFullPayload(refresh)
    ensures Reconcile(refresh, local[UserKey := Persisted(Reconcile(login, local), login.expires)])
              == Reconcile(login, local)
  {
  }

  /** A partial update with nothing persisted yet stores the new token and
      an empty profile. */
  lemma RefreshOnEmptyStorage(data: TokenData, local: map<string, StoredUser>)
    requires !IsFullPayload(data) && UserKey !in local
    ensures Reconcile(data, local) == Session(data.accessToken, Profile("", "", "", [], []))
  {
  }

  /** What `getToken` returns: the cookie envelope, or the whole persisted
      record when the cookie is gone. */
  datatype TokenView = FromCookie(accessToken: string, expires: int) | FromStorage(record: StoredUser)

  /** `getToken()`: the cookie is preferred; `None` is `null`. */
  function GetToken(b: BrowserStorage): (r: Option<TokenView>)
    reads b
    ensures TokenKey in b.cookies && b.cookies[TokenKey].value.TokenEnvelope? ==>
              r == Some(FromCookie(b.cookies[TokenKey].value.accessToken,
                                   b.cookies[TokenKey].value.expires))
    ensures TokenKey !in b.cookies ==>
              r == (if UserKey in b.local then Some(FromStorage(b.local[UserKey])) else None)
  {
    if TokenKey in b.cookies && b.cookies[TokenKey].value.TokenEnvelope? then
      var env := b.cookies[TokenKey].value;
      Some(FromCookie(env.accessToken, env.expires))
    else if UserKey in b.local then Some(FromStorage(b.local[UserKey]))
    else None
  }

  /** `setUserKey`: mirror the session into the user store through its
      setters, then persist it with the expiry. */
  method SetUserKey(session: Session, expires: int, browser: BrowserStorage, store: UserStore)
    modifies browser`local, store
    ensures browser.local == old(browser.local)[UserKey := Persisted(session, expires)]
    ensures store.CurrentProfile() == session.profile
    ensures store.isRemembered == old(store.isRemembered) && store.loginDay == old(store.loginDay)
  {
    store.SetAvatar(session.profile.avatar);
    store.SetUsername(session.profile.username);
    store.SetNickname(session.profile.nickname);
    store.SetRoles(session.profile.roles);
    store.SetPerms(session.profile.permissions);
    browser.local := browser.local[UserKey := Persisted(session, expires)];
  }

  /** `setToken(data)` at time `now`. A token whose expiry has already
      passed leaves no token cookie, so `getToken` then reads the record
      just persisted, whose access token on the partial path is the stored
      one. */
  method SetToken(data: TokenData, now: int, browser: BrowserStorage, store: UserStore)
    modifies browser, store
    ensures browser.cookies == SetCookie(SetCookie(old(browser.cookies), TokenKey, TokenCookie(data, now)),
                                         MultipleTabsKey, TabsCookie(old(store.isRemembered), old(store.loginDay)))
    ensures browser.local == old(browser.local)[UserKey := Persisted(Reconcile(data, old(browser.local)),
                                                                      data.expires)]
    ensures store.CurrentProfile() == Reconcile(data, old(browser.local)).profile
    ensures store.isRemembered == old(store.isRemembered) && store.loginDay == old(store.loginDay)
    ensures StoredProfile(browser.local) == store.CurrentProfile()
    ensures !(0 < data.expires <= now) ==> GetToken(browser) == Some(FromCookie(data.accessToken, data.expires))
    ensures 0 < data.expires <= now ==>
              GetToken(browser) == Some(FromStorage(Persisted(Reconcile(data, old(browser.local)), data.expires)))
  {
    var expires := data.expires;
    var tokenTtl := if expires > 0 then ExpiresInMs(expires - now) else SessionScoped;
    browser.cookies := SetCookie(browser.cookies, TokenKey, Cookie(TokenEnvelope(data.accessToken, expires), tokenTtl));
    var tabsTtl := if store.isRemembered then ExpiresInDays(store.loginDay) else SessionScoped;
    browser.cookies := SetCookie(browser.cookies, MultipleTabsKey, Cookie(Text("true"), tabsTtl));
    assert TokenKey != MultipleTabsKey;

    var session: Session;
    if data.username.Some? && data.username.value != "" && data.roles.Some? {
      session := Session(data.accessToken,
                         Profile(data.avatar.GetOr(""), data.username.value, data.nickname.GetOr(""),
                                 data.roles.value, data.permissions.GetOr([])));
    } else {
      var stored := StoredAccessToken(browser.local);
      session := Session(if stored != "" then stored else data.accessToken, StoredProfile(browser.local));
    }
    assert session == Reconcile(data, old(browser.local));
    SetUserKey(session, expires, browser, store);
    PersistedReadsBack(session, expires, old(browser.local));
  }

  /** `removeToken()`: both cookies and the persisted record go; missing
      keys are no error. */
  method RemoveToken(browser: BrowserStorage)
    modifies browser
    ensures browser.cookies == old(browser.cookies) - {TokenKey, MultipleTabsKey}
    ensures browser.local == old(browser.local) - {UserKey}
    ensures GetToken(browser) == None
  {
    browser.cookies := browser.cookies - {TokenKey};
    browser.cookies := browser.cookies - {MultipleTabsKey};
    browser.local := browser.local - {UserKey};
  }
}
