/** The session actions of the user store (`src/store/modules/user.ts`):
    turning the login and profile replies into the session record, the
    login action with its replies given as parameters, and the front-end
    log-out. */
module UserLogin {
  import opened Wrappers
  import opened Js
  import opened JsText
  import opened AuthCodec
  import opened Stores
  import opened AuthToken

  /** The login endpoint's reply (`JwtLoginResponse`); only `access_token`
      is read. */
  datatype JwtLoginResponse = JwtLoginResponse(accessToken: Option<string>)

  /** The `/users/me` reply (`RemoteLoginUser`); only these fields are read. */
  datatype RemoteUser = RemoteUser(
    username: Option<string>,
    firstName: Option<string>,
    lastName: Option<string>,
    role: Option<string>)

  /** The credentials the login form submitted; only the user name is read. */
  datatype LoginRequest = LoginRequest(username: Option<string>)

  datatype LoginError = EmptyToken | RequestFailed(reason: string)

  predicate IsTruthyText(s: Option<string>) {
    s.Some? && s.value != ""
  }

  /** `res?.access_token ?? ""`. */
  function IssuedToken(res: Option<JwtLoginResponse>): string {
    match res
    case None => ""
    case Some(r) => r.accessToken.GetOr("")
  }

  /** `user?.username ?? data?.username ?? ""`: only a missing name falls
      through, an empty one does not. */
  function LoginUsername(user: Option<RemoteUser>, request: Option<LoginRequest>): (r: string)
    ensures user.Some? && user.value.username.Some? ==> r == user.value.username.value
    ensures ((user.None? || user.value.username.None?) && request.Some? && request.value.username.Some?)
              ==> r == request.value.username.value
    ensures ((user.None? || user.value.username.None?) && (request.None? || request.value.username.None?))
              ==> r == ""
  {
    if user.Some? && user.value.username.Some? then user.value.username.value
    else if request.Some? && request.value.username.Some? then request.value.username.value
    else ""
  }

  /** `[first, last].filter(Boolean)`: exactly the non-empty parts, first
      name first. */
  function PresentNames(first: Option<string>, last: Option<string>): (r: seq<string>)
    ensures |r| == (if IsTruthyText(first) then 1 else 0) + (if IsTruthyText(last) then 1 else 0)
    ensures forall s :: s in r <==> s != "" && (first == Some(s) || last == Some(s))
    ensures IsTruthyText(first) ==> r[0] == first.value
    ensures IsTruthyText(last) ==> r[|r| - 1] == last.value
  {
    (if IsTruthyText(first) then [first.value] else [])
      + (if IsTruthyText(last) then [last.value] else [])
  }

  /** The present name parts joined by a space; nothing without a user. */
  function JoinedName(user: Option<RemoteUser>): string {
    if user.Some? then Join(PresentNames(user.value.firstName, user.value.lastName), " ") else ""
  }

  /** The joined name, trimmed. */
  function FullName(user: Option<RemoteUser>): string {
    Trim(JoinedName(user))
  }

  /** The nickname: the present name parts joined by a space and trimmed;
      when that is empty, the remote user name if it is not empty; else the
      login user name. */
  function Nickname(user: Option<RemoteUser>, username: string): string {
    var fullName := FullName(user);
    if fullName != "" then fullName
    else if user.Some? && IsTruthyText(user.value.username) then user.value.username.value
    else username
  }

  /** The nickname is empty only when every source of a name is. */
  lemma NicknameEmpty(user: Option<RemoteUser>, username: string)
    ensures Nickname(user, username) == "" <==>
              username == "" && AllSpace(JoinedName(user))
              && (user.Some? ==> !IsTruthyText(user.value.username))
  {
  }

  /** A first and a last name make the nickname "first last", without the
      white space before the first name and after the last one (white space
      between them stays). */
  lemma {:induction false} NicknameFromFullName(user: RemoteUser, username: string,
                                                p: string, f: string, l: string, q: string)
    requires user.firstName == Some(p + f) && user.lastName == Some(l + q)
    requires AllSpace(p) && AllSpace(q)
    requires f != "" && !IsJsSpace(f[0]) && l != "" && !IsJsSpace(l[|l| - 1])
    ensures Nickname(Some(user), username) == f + " " + l
  {
    var m := f + " " + l;
    assert PresentNames(user.firstName, user.lastName) == [p + f, l + q];
    assert Join([p + f, l + q], " ") == p + m + q;
    assert m[0] == f[0] && m[|m| - 1] == l[|l| - 1];
    TrimStripsOuterSpace(p, m, q);
  }

  /** A single name part is the nickname, without its outer white space. */
  lemma {:induction false} NicknameFromOneName(user: RemoteUser, username: string,
                                               p: string, m: string, q: string)
    requires (user.firstName == Some(p + m + q) && !IsTruthyText(user.lastName))
             || (user.lastName == Some(p + m + q) && !IsTruthyText(user.firstName))
    requires AllSpace(p) && AllSpace(q)
    requires m != "" && !IsJsSpace(m[0]) && !IsJsSpace(m[|m| - 1])
    ensures Nickname(Some(user), username) == m
  {
    assert PresentNames(user.firstName, user.lastName) == [p + m + q];
    assert Join([p + m + q], " ") == p + m + q;
    TrimStripsOuterSpace(p, m, q);
  }

  /** With no usable first or last name, the remote user name is the
      nickname if it is not empty. */
  lemma NicknameFallsBackToRemoteName(user: RemoteUser, username: string)
    requires !IsTruthyText(user.firstName) && !IsTruthyText(user.lastName)
    requires IsTruthyText(user.username)
    ensures Nickname(Some(user), username) == user.username.value
  {
  }

  /** `token ? getTokenExpiryFromJwt(token) : now + 1h`: the guard changes
      nothing, because an empty token has no payload to read either. */
  function LoginExpiry(token: string, now: int, decode: string -> Option<Value>): (e: int)
    ensures e == GetTokenExpiryFromJwt(token, now, decode)
  {
    if token != "" then GetTokenExpiryFromJwt(token, now, decode) else now + DefaultTokenTtl
  }

  /** `user?.role ? [user.role] : []`. */
  function LoginRoles(user: Option<RemoteUser>): seq<string> {
    if user.Some? && IsTruthyText(user.value.role) then [user.value.role.value] else []
  }

  /** `mappedData`: the record `setToken` receives after a successful login. */
  function MapLogin(token: string, user: Option<RemoteUser>, request: Option<LoginRequest>,
                    now: int, decode: string -> Option<Value>): (d: TokenData)
    ensures d.accessToken == token && d.refreshToken == Some(token)
    ensures d.expires == GetTokenExpiryFromJwt(token, now, decode)
    ensures d.avatar == Some("") && d.permissions == Some([])
    ensures d.username == Some(LoginUsername(user, request))
    ensures d.nickname == Some(Nickname(user, LoginUsername(user, request)))
    ensures d.roles == Some(if user.Some? && IsTruthyText(user.value.role) then [user.value.role.value] else [])
  {
    var username := LoginUsername(user, request);
    TokenData(token, LoginExpiry(token, now, decode), Some(token), Some(""), Some(username),
              Some(Nickname(user, username)), Some(LoginRoles(user)), Some([]))
  }

  /** The mapped record always carries a role list, so `setToken` takes the
      overwrite path exactly when the user name is not empty; with an empty
      one it keeps whatever profile was persisted before. */
  lemma LoginOverwritesIffUsername(token: string, user: Option<RemoteUser>, request: Option<LoginRequest>,
                                   now: int, decode: string -> Option<Value>)
    ensures IsFullPayload(MapLogin(token, user, request, now, decode)) <==> LoginUsername(user, request) != ""
  {
  }

  /** After a login with a user name, the session profile is the mapped one:
      no avatar, the derived nickname, the role if any, no permissions. */
  lemma LoginProfile(token: string, user: Option<RemoteUser>, request: Option<LoginRequest>,
                     now: int, decode: string -> Option<Value>, local: map<string, StoredUser>)
    requires LoginUsername(user, request) != ""
    ensures var d := MapLogin(token, user, request, now, decode);
            Reconcile(d, local) ==
              Session(token, Profile("", d.username.value, d.nickname.value, d.roles.value, []))
  {
  }

  /** `loginByUsername(data)` with the two replies as parameters (`Err` is
      a rejected request). An empty or missing token rejects before the
      profile is asked for and before anything is stored. */
  method LoginByUsername(request: Option<LoginRequest>,
                         loginReply: Result<Option<JwtLoginResponse>, string>,
                         userReply: Result<Option<RemoteUser>, string>,
                         now: int, decode: string -> Option<Value>,
                         browser: BrowserStorage, store: UserStore)
    returns (r: Result<TokenData, LoginError>)
    modifies browser, store
    ensures loginReply.Err? ==> r == Err(RequestFailed(loginReply.error))
    ensures loginReply.Ok? && IssuedToken(loginReply.value) == "" ==> r == Err(EmptyToken)
    ensures loginReply.Ok? && IssuedToken(loginReply.value) != "" && userReply.Err? ==>
              r == Err(RequestFailed(userReply.error))
    ensures loginReply.Ok? && IssuedToken(loginReply.value) != "" && userReply.Ok? ==>
              r == Ok(MapLogin(IssuedToken(loginReply.value), userReply.value, request, now, decode))
    ensures r.Err? ==> unchanged(browser, store)
    ensures r.Ok? ==>
              browser.cookies == SetCookie(SetCookie(old(browser.cookies), TokenKey, TokenCookie(r.value, now)),
                                           MultipleTabsKey, TabsCookie(old(store.isRemembered), old(store.loginDay)))
    ensures r.Ok? ==>
              browser.local == old(browser.local)[UserKey := Persisted(Reconcile(r.value, old(browser.local)),
                                                                       r.value.expires)]
    ensures r.Ok? ==> store.CurrentProfile() == Reconcile(r.value, old(browser.local)).profile
    ensures r.Ok? ==> store.isRemembered == old(store.isRemembered) && store.loginDay == old(store.loginDay)
    ensures r.Ok? && !(0 < r.value.expires <= now) ==>
              GetToken(browser) == Some(FromCookie(r.value.accessToken, r.value.expires))
    ensures r.Ok? && 0 < r.value.expires <= now ==>
              GetToken(browser) == Some(FromStorage(Persisted(Reconcile(r.value, old(browser.local)), r.value.expires)))
  {
    if loginReply.Err? {
      return Err(RequestFailed(loginReply.error));
    }
    var token := IssuedToken(loginReply.value);
    if token == "" {
      return Err(EmptyToken);
    }
    if userReply.Err? {
      return Err(RequestFailed(userReply.error));
    }
    var mapped := MapLogin(token, userReply.value, request, now, decode);
    SetToken(mapped, now, browser, store);
    r := Ok(mapped);
  }

  /** `logOut()`: clear the user name, roles and permissions in the store
      (avatar and nickname stay) and remove the persisted session. */
  method LogOut(store: UserStore, browser: BrowserStorage)
    modifies store, browser
    ensures store.CurrentProfile() == old(store.CurrentProfile()).(username := "", roles := [], permissions := [])
    ensures store.isRemembered == old(store.isRemembered) && store.loginDay == old(store.loginDay)
    ensures browser.cookies == old(browser.cookies) - {TokenKey, MultipleTabsKey}
    ensures browser.local == old(browser.local) - {UserKey}
    ensures GetToken(browser) == None
  {
    store.username := "";
    store.roles := [];
    store.permissions := [];
    RemoveToken(browser);
  }
}
