/** The two browser key-value stores the session lives in, and the user
    store (`src/store/modules/user.ts`): its initial state read back from
    persistent storage and its field setters. */
module Stores {
  import opened Wrappers

  /** localStorage key of the full session record. */
  const UserKey: string := "user-info"
  /** Cookie holding `{accessToken, expires}`. */
  const TokenKey: string := "authorized-token"
  /** Cookie whose presence says "logged in" across tabs; it dies with the
      browser session unless "remember me" was ticked. */
  const MultipleTabsKey: string := "multiple-tabs"

  /** The `user-info` record as read back from localStorage: any field may
      be missing from what is stored there. */
  datatype StoredUser = StoredUser(
    accessToken: Option<string>,
    expires: Option<int>,
    avatar: Option<string>,
    username: Option<string>,
    nickname: Option<string>,
    roles: Option<seq<string>>,
    permissions: Option<seq<string>>)

  /** A cookie's content: the token envelope written by `setToken` (its
      JSON text stands for itself here) or plain text. */
  datatype CookieValue = TokenEnvelope(accessToken: string, expires: int) | Text(text: string)

  /** How long a cookie lives: until the browser closes, a number of
      milliseconds from when it was set, or a number of days. */
  datatype CookieTtl = SessionScoped | ExpiresInMs(ms: int) | ExpiresInDays(days: int)

  datatype Cookie = Cookie(value: CookieValue, ttl: CookieTtl)

  /** A lifetime that has already run out when the cookie is written:
      js-cookie turns a number of days into the date `now + days`, and a
      date not after the present makes the browser drop the cookie. */
  predicate BornExpired(ttl: CookieTtl) {
    (ttl.ExpiresInMs? && ttl.ms <= 0) || (ttl.ExpiresInDays? && ttl.days <= 0)
  }

  /** `Cookies.set(key, ...)`: the jar holds the new cookie under `key`,
      unless it is born expired, in which case the browser removes any
      cookie of that name; other cookies are untouched. */
  function SetCookie(jar: map<string, Cookie>, key: string, c: Cookie): (r: map<string, Cookie>)
    ensures !BornExpired(c.ttl) ==> key in r && r[key] == c
    ensures BornExpired(c.ttl) ==> key !in r
    ensures forall k :: k != key ==> (k in r <==> k in jar)
    ensures forall k :: k != key && k in r ==> r[k] == jar[k]
  {
    if BornExpired(c.ttl) then jar - {key} else jar[key := c]
  }

  /** The cookie jar and localStorage, as maps from key to entry. */
  class BrowserStorage {
    var cookies: map<string, Cookie>
    var local: map<string, StoredUser>

    constructor (cookies: map<string, Cookie>, local: map<string, StoredUser>)
      ensures this.cookies == cookies && this.local == local
    {
      this.cookies := cookies;
      this.local := local;
    }
  }

  /** The identity part of a session, as the user store holds it. */
  datatype Profile = Profile(
    avatar: string,
    username: string,
    nickname: string,
    roles: seq<string>,
    permissions: seq<string>)

  /** The persisted record, or nothing. */
  function StoredRecord(local: map<string, StoredUser>): Option<StoredUser> {
    if UserKey in local then Some(local[UserKey]) else None
  }

  /** `getItem(userKey)?.field ?? default` for every profile field: the
      empty string for texts, the empty list for lists. */
  function StoredProfile(local: map<string, StoredUser>): Profile {
    match StoredRecord(local)
    case None => Profile("", "", "", [], [])
    case Some(u) =>
      Profile(u.avatar.GetOr(""), u.username.GetOr(""), u.nickname.GetOr(""),
              u.roles.GetOr([]), u.permissions.GetOr([]))
  }

  /** `getItem(userKey)?.accessToken ?? ""`. */
  function StoredAccessToken(local: map<string, StoredUser>): string {
    match StoredRecord(local)
    case None => ""
    case Some(u) => u.accessToken.GetOr("")
  }

  /** The `pure-user` store. */
  class UserStore {
    var avatar: string
    var username: string
    var nickname: string
    var roles: seq<string>
    var permissions: seq<string>
    /** "remember me" on the login page. */
    var isRemembered: bool
    /** How many days "remember me" lasts. */
    var loginDay: int

    function CurrentProfile(): Profile
      reads this
    {
      Profile(avatar, username, nickname, roles, permissions)
    }

    /** The initial state: the profile read back from localStorage,
        "remember me" off, seven days. */
    constructor (local: map<string, StoredUser>)
      ensures CurrentProfile() == StoredProfile(local)
      ensures !isRemembered && loginDay == 7
    {
      var p := StoredProfile(local);
      avatar, username, nickname := p.avatar, p.username, p.nickname;
      roles, permissions := p.roles, p.permissions;
      isRemembered := false;
      loginDay := 7;
    }

    method SetAvatar(avatar: string)
      modifies this`avatar
      ensures CurrentProfile() == old(CurrentProfile()).(avatar := avatar)
    {
      this.avatar := avatar;
    }

    method SetUsername(username: string)
      modifies this`username
      ensures CurrentProfile() == old(CurrentProfile()).(username := username)
    {
      this.username := username;
    }

    method SetNickname(nickname: string)
      modifies this`nickname
      ensures CurrentProfile() == old(CurrentProfile()).(nickname := nickname)
    {
      this.nickname := nickname;
    }

    method SetRoles(roles: seq<string>)
      modifies this`roles
      ensures CurrentProfile() == old(CurrentProfile()).(roles := roles)
    {
      this.roles := roles;
    }

    method SetPerms(permissions: seq<string>)
      modifies this`permissions
      ensures CurrentProfile() == old(CurrentProfile()).(permissions := permissions)
    {
      this.permissions := permissions;
    }

    method SetIsRemembered(b: bool)
      modifies this`isRemembered
      ensures isRemembered == b
    {
      isRemembered := b;
    }

    /** `Number(value)` of a number is that number. */
    method SetLoginDay(value: int)
      modifies this`loginDay
      ensures loginDay == value
    {
      loginDay := value;
    }
  }
}
