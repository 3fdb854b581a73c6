# pure-admin-thin session and dynamic-component core, in Dafny

This project models the client-side core of the pure-admin-thin admin
console and proves properties of that model:

- the session helpers in `src/utils/auth.ts`: the bearer header value, the
  button-level permission check `hasPerms`, the base64url normalisation and
  JWT `exp` reading (sections 4 and 5 of RFC 4648, section 4.1.4 of
  RFC 7519), and writing, reading and removing the session in the
  `authorized-token` / `multiple-tabs` cookies and the `user-info`
  localStorage record;
- the `pure-user` store in `src/store/modules/user.ts`: its initial state read
  back from localStorage, its setters, `loginByUsername` and `logOut`;
- the list-page state hook `useListQuery` (`src/hooks/useListQuery.ts`);
- the dynamic form and table schemas (`src/components/Dynamic/schema.ts`,
  `table.ts`) and the permission gate of the dynamic components
  (`permission.ts`).

Files and modules:

| file | module | what |
|---|---|---|
| `wrappers.dfy` | `Wrappers` | `Option`, `Result` |
| `js.dfy` | `Js` | JavaScript values; objects and `Map`s as ordered entry lists with lookup, assignment and spread |
| `js_text.dfy` | `JsText` | `String()`, `join`, `split` on one character, `trim` |
| `auth_codec.dfy` | `AuthCodec` | the pure half of `auth.ts` |
| `stores.dfy` | `Stores` | the cookie jar and localStorage, the user store class |
| `auth_token.dfy` | `AuthToken` | `getToken`, `setToken`, `removeToken` |
| `user_login.dfy` | `UserLogin` | `loginByUsername`, `logOut` |
| `list_query.dfy` | `ListQuery` | the `useListQuery` state as a class |
| `dynamic_schema.dfy` | `DynamicSchema` | form-item defaults, child generation, v1 migration, read-only display |
| `dynamic_table.dfy` | `DynamicTable` | column defaults and the default cell formatter |
| `dynamic_permission.dfy` | `DynamicPermission` | `checkDynamicPermission` |

Modelling choices:

- A plain object or a `Map` is an ordered list of entries, because the
  order is visible to the code (`Object.entries` drives the order of the
  generated options). Assigning a present key keeps its place. Assigning a
  new key appends it. `{ ...a, ...b }` assigns `b`'s entries onto `a` one by one.
- The user store and the browser stores are classes whose methods assign
  their fields. The list query is a class with one field per piece of state.
  Its `onParamsChange` callback is modelled by the list `emitted` of the
  arguments it received.
- The time (`Date.now()`) is a parameter `now`. `atob` followed by
  `JSON.parse` is an uninterpreted parameter `decode`, where `None` means
  one of them threw. The router's `hasAuth` is also a parameter.
- `loginByUsername` takes the replies of its two HTTP requests as
  parameters, with `Err` for a rejected request.
- A partial `setToken` (no user name or no role list) keeps the persisted
  access token when that token is not empty (`auth.ts:118`). The session
  record is not updated with the new token. The model follows the code,
  and `RefreshAfterLoginKeepsSession` states the consequence.

## Model

| member | source | states |
|---|---|---|
| AuthCodec.FormatToken | src/utils/auth.ts:136-138 | the header value is "Bearer ", then the token unchanged |
| AuthCodec.FormatTokenInjective | src/utils/auth.ts:136-138 | distinct tokens give distinct header values |
| AuthCodec.IncludesAll | src/utils/auth.ts:147-149 | a list request is granted iff every listed permission is held |
| AuthCodec.HasPerms | src/utils/auth.ts:141-151 | a falsy request or a missing permission list is denied; the lone wildcard `*:*:*` grants everything; otherwise granted iff every requested permission is held |
| AuthCodec.HasPermsListIsConjunction | src/utils/auth.ts:147-149 | a list of non-empty permissions is granted iff each one, asked alone, is granted; so the empty list is granted whenever a permission list is held |
| AuthCodec.HasPermsMonotone | src/utils/auth.ts:145-150 | holding a superset of non-wildcard permissions never loses a grant |
| AuthCodec.WildcardMustBeAlone | src/utils/auth.ts:146 | held next to any other permission, the wildcard grants nothing by itself: a request is granted iff it is truthy and every requested permission is held literally |
| AuthCodec.NormalizeBase64 | src/utils/auth.ts:155-161 | `-`→`+` and `_`→`/` everywhere, then "==" or "=" padding for a length of 2 or 3 modulo 4; the result holds neither `-` nor `_` and has whole quanta unless the length is 1 modulo 4 |
| AuthCodec.NormalizeInvertsBase64Url | src/utils/auth.ts:155-161 | normalising the unpadded url-safe form of any padded standard base64 text gives that text back |
| AuthCodec.NormalizeIsCanonical | src/utils/auth.ts:155-161 | a url-safe text of a possible length normalises to padded standard base64 with exactly the added padding |
| AuthCodec.ParseJwtPayload | src/utils/auth.ts:163-176 | an empty token or one without a dot gives null; otherwise the decoded second dot-separated segment |
| AuthCodec.GetTokenExpiryFromJwt | src/utils/auth.ts:178-184 | a numeric `exp` claim (read by its helper `ExpClaim`) gives `exp * 1000`; anything else gives now plus one hour |
| AuthCodec.ExpiryWithoutPayloadSegment | src/utils/auth.ts:166-183 | a token without a dot expires one hour from now |
| AuthCodec.ExpiryOfCompactToken | src/utils/auth.ts:167-181 | `header.payload.signature` whose payload decodes to an object with numeric `exp` expires at `exp` seconds |
| AuthCodec.ExpiryOfUndecodablePayload | src/utils/auth.ts:170-183 | a payload that does not decode falls back to one hour from now |
| AuthToken.TokenCookie | src/utils/auth.ts:48-58 | the token cookie holds the token and the expiry; for a positive expiry it lives exactly `expires - now` milliseconds, otherwise for the browser session; it is born expired iff the expiry is positive and not after now |
| AuthToken.TabsCookie | src/utils/auth.ts:60-68 | the `multiple-tabs` cookie holds "true"; it is dropped on writing exactly when "remember me" is on with a `loginDay` of zero or fewer days |
| Stores.SetCookie | src/utils/auth.ts:54-68 | `Cookies.set` stores the cookie under its name, except that a cookie whose lifetime has already run out removes any cookie of that name; other cookies are untouched |
| AuthToken.Reconcile | src/utils/auth.ts:94-125 | the test `data.username && data.roles` (`IsFullPayload`) picks the path: a full payload overwrites the session with defaults "", "" and [] for the missing avatar, nickname and permissions; otherwise the persisted profile (`StoredProfile`, each field `?? ""` or `?? []`) is kept, and so is the persisted access token unless it is empty |
| AuthToken.PersistedReadsBack | src/utils/auth.ts:83-116 | the record `setUserKey` writes (`Persisted`) reads back as exactly the session written |
| AuthToken.RefreshAfterLoginKeepsSession | src/utils/auth.ts:104-125 | a partial update after a full login with a non-empty token leaves the session as the login set it |
| AuthToken.RefreshOnEmptyStorage | src/utils/auth.ts:104-124 | a partial update with nothing persisted stores the new token and an empty profile |
| AuthToken.GetToken | src/utils/auth.ts:35-40 | the cookie's token envelope is preferred; without the cookie, the persisted record or null |
| AuthToken.SetUserKey | src/utils/auth.ts:70-92 | the user store takes the session's profile and `user-info` holds the session with the expiry; "remember me" settings untouched |
| AuthToken.SetToken | src/utils/auth.ts:47-126 | both cookies are written through `Cookies.set`, the store and `user-info` hold the reconciled session and agree with each other, "remember me" is untouched; `getToken` then returns the new token and expiry, except for an expiry already past, where the token cookie is gone and `getToken` returns the `user-info` record just written |
| AuthToken.RemoveToken | src/utils/auth.ts:129-133 | both cookies and `user-info` are gone, nothing else changes, and `getToken` returns null |
| Stores.UserStore.constructor | src/store/modules/user.ts:21-37 | the profile is the persisted one with "" and [] for missing fields; not remembered; seven days |
| Stores.UserStore.SetAvatar | src/store/modules/user.ts:40-42 | only the avatar changes |
| Stores.UserStore.SetUsername | src/store/modules/user.ts:44-46 | only the user name changes |
| Stores.UserStore.SetNickname | src/store/modules/user.ts:48-50 | only the nickname changes |
| Stores.UserStore.SetRoles | src/store/modules/user.ts:52-54 | only the roles change |
| Stores.UserStore.SetPerms | src/store/modules/user.ts:56-58 | only the permissions change |
| Stores.UserStore.SetIsRemembered | src/store/modules/user.ts:60-62 | "remember me" takes the given value |
| Stores.UserStore.SetLoginDay | src/store/modules/user.ts:64-66 | the remembered days take the given number |
| UserLogin.LoginUsername | src/store/modules/user.ts:76 | the remote user name if present (even an empty one wins), else the submitted one, else "" |
| UserLogin.PresentNames | src/store/modules/user.ts:78-79 | exactly the non-empty name parts are kept, as many as there are, the first name before the last |
| UserLogin.NicknameEmpty | src/store/modules/user.ts:77-83 | the nickname is empty iff the joined names are all white space, the remote user name is empty or missing, and the login user name is empty |
| UserLogin.NicknameFromFullName | src/store/modules/user.ts:77-81 | a first and a last name make the nickname (`Nickname`) "first last", with the white space before the first and after the last name trimmed |
| UserLogin.NicknameFromOneName | src/store/modules/user.ts:77-81 | a single name part, trimmed, is the nickname |
| JsText.TrimStripsOuterSpace | src/store/modules/user.ts:81 | `trim()` removes exactly the white space around text whose ends are not white space |
| JsText.TrimEmpty | src/store/modules/user.ts:81-82 | text trims to "" (so that `\|\|` falls through) iff it is all white space |
| UserLogin.NicknameFallsBackToRemoteName | src/store/modules/user.ts:77-82 | without usable name parts the non-empty remote user name is the nickname |
| UserLogin.LoginExpiry | src/store/modules/user.ts:87-89 | the `token ?` guard around the expiry changes nothing: the result is the JWT expiry for every token |
| UserLogin.MapLogin | src/store/modules/user.ts:84-95 | the mapped record carries the token as access and refresh token, the JWT expiry, an empty avatar, no permissions, the derived user name and nickname, and the role if any (`LoginRoles`) |
| UserLogin.LoginOverwritesIffUsername | src/store/modules/user.ts:84-96 | the login overwrites the persisted profile iff the derived user name is not empty |
| UserLogin.LoginProfile | src/store/modules/user.ts:84-96 | after a login with a user name, the session is the token with the mapped profile |
| UserLogin.LoginByUsername | src/store/modules/user.ts:68-101 | a rejected request or an empty token (`IssuedToken`, `res?.access_token ?? ""`) fails with nothing stored; otherwise the mapped record is returned and the new state is that of `setToken`: both cookies, the `user-info` record and the store's profile, "remember me" untouched, and `getToken` reading the new token unless its expiry is already past |
| UserLogin.LogOut | src/store/modules/user.ts:103-111 | the user name, roles and permissions are cleared, avatar and nickname kept, and the session removed |
| ListQuery.InitialPagination | src/hooks/useListQuery.ts:54-61 | each pagination field from the options, else page 1, size 10, total 0, no rows |
| ListQuery.ListQuery.constructor | src/hooks/useListQuery.ts:51-72 | the state starts at the initial parameters (`InitialParams`: the given defaults, else none), pagination and sort (`InitialSort`: the given sort, else no order), not loading, nothing emitted |
| ListQuery.ListQuery.SetLoading | src/hooks/useListQuery.ts:83-85 | the loading flag takes the value |
| ListQuery.ListQuery.WithLoading | src/hooks/useListQuery.ts:74-81 | the flag is up while the executor runs and down afterwards, on success and on failure; the outcome passes through |
| ListQuery.ListQuery.SetParams | src/hooks/useListQuery.ts:93-96 | the parameters are replaced and the callback, if any, receives them |
| ListQuery.ListQuery.UpdateParams | src/hooks/useListQuery.ts:98-102 | keys of the partial take its values, other keys keep theirs and their places, no key is lost, and the callback receives the merge |
| ListQuery.ListQuery.ResetParams | src/hooks/useListQuery.ts:104-108 | the given parameters, else the initial ones, and the callback receives them |
| ListQuery.ListQuery.SetPage | src/hooks/useListQuery.ts:110-112 | only the page changes |
| ListQuery.ListQuery.SetPageSize | src/hooks/useListQuery.ts:114-117 | the size changes and the page goes back to 1 |
| ListQuery.ListQuery.SetResult | src/hooks/useListQuery.ts:119-124 | the rows are replaced; the total only when one is given |
| ListQuery.ListQuery.SetTotal | src/hooks/useListQuery.ts:126-128 | only the total changes |
| ListQuery.ListQuery.SetSort | src/hooks/useListQuery.ts:130-132 | the sort takes the payload |
| ListQuery.ListQuery.Reset | src/hooks/useListQuery.ts:134-141 | parameters, pagination and sort return to their initial values; the loading flag is untouched |
| ListQuery.ResetIsIdempotent | src/hooks/useListQuery.ts:134-141 | the parameters, pagination and sort after a second reset equal those after the first, which are the initial ones; the callback is told twice |
| ListQuery.ParamsLeavePagingAlone | src/hooks/useListQuery.ts:93-108 | the three parameter setters never touch pagination or sort, and each notifies once |
| DynamicSchema.InitItemKeys | src/components/Dynamic/schema.ts:70-75 | the keys of `InitItem` (`INIT_ITEM`): every default key stays, in the default order; the configuration's other keys follow |
| DynamicSchema.InitItemValues | src/components/Dynamic/schema.ts:70-75 | in `InitItem`, configured keys take the configured value; all others keep the default |
| DynamicSchema.DefaultFormItemShown | src/components/Dynamic/schema.ts:38 | the default item is visible |
| DynamicSchema.DefaultFormItemHasRewrittenKeys | src/components/Dynamic/schema.ts:34-68 | the default item has `component`, `childComponent`, `childMap` and `childSlotMap` |
| DynamicSchema.InitItemShownByDefault | src/components/Dynamic/schema.ts:70-75 | an item whose configuration says nothing of `visible` is visible |
| DynamicSchema.InitItemIsShallow | src/components/Dynamic/schema.ts:70-75 | a configured `attrs` replaces the default attributes whole |
| DynamicSchema.SlotMapOf | src/components/Dynamic/schema.ts:109-120 | radio and checkbox children render their label; an option renders through a given formatter; otherwise there is no slot |
| DynamicSchema.ChildMapOfUnique | src/components/Dynamic/schema.ts:87-108 | the generator's child map (`ChildMapOf`): a known child kind gets one child per option entry, in entry order, keyed and valued by the entry's key and labelled by its text |
| DynamicSchema.ChildMapOfStep | src/components/Dynamic/schema.ts:87-108 | each entry sets its child for a known kind and nothing for another |
| DynamicSchema.ChildMapFinds | src/components/Dynamic/schema.ts:87-108 | looking an entry's key up in the generated map finds that entry's child |
| DynamicSchema.DescriptorFields | src/components/Dynamic/schema.ts:90-105 | a child (`ChildDescriptor`) has the option's key as `key` and `value`, its text as `label`, and `disabled: false` for an `el-option`, whatever the given child attributes say |
| DynamicSchema.DescriptorKeepsAttrs | src/components/Dynamic/schema.ts:90-105 | every other child attribute is kept, `disabled` included for radio and checkbox children |
| DynamicSchema.GenerateChild | src/components/Dynamic/schema.ts:77-122 | fails iff the option map is undefined or null (`OptionEntries`: a `Map`'s entries, else `Object.entries`); otherwise the child map is built entry by entry and the slot map as the closing switch says |
| DynamicSchema.MigrateLaws | src/components/Dynamic/schema.ts:126-136 | the four assignments set their keys, keep the key order, and change no other key |
| DynamicSchema.InitItemHasRewrittenKeys | src/components/Dynamic/schema.ts:125 | a filled-in legacy item already has the four keys the migration sets |
| DynamicSchema.ConvertV1ToV2 | src/components/Dynamic/schema.ts:124-138 | fails iff the legacy option map is undefined or null; otherwise the filled-in item with its component, child component and generated child maps replaced, and nothing else changed |
| DynamicSchema.ReadOnlyFormat | src/components/Dynamic/schema.ts:140-150 | "null" shows as "-", 0 as "0", another falsy value as "", a truthy value as itself; the result is never "null" |
| DynamicSchema.ReadOnlyPlainValues | src/components/Dynamic/schema.ts:147-149 | without a child map, 0, "null", "" and undefined show as "0", "-", "" and "" |
| DynamicSchema.ReadOnlyShowsOptionText | src/components/Dynamic/schema.ts:140-146 | a value shown through a generated child map reads as its option's text |
| DynamicSchema.ReadOnlyUnknownValue | src/components/Dynamic/schema.ts:142-146 | a value with no child falls back to itself |
| DynamicSchema.ChildMapShows | src/components/Dynamic/schema.ts:144 | `childMap.get(v)?.label \|\| v` (`LabelOr`) over a generated child map is the option text of `v` when truthy, else `v` |
| DynamicSchema.ReadOnlyShowsOptionTexts | src/components/Dynamic/schema.ts:141-146 | a list value (`DisplayValue`) shows as its elements' option texts, in order, joined with "、"; an element without an option shows as its own text |
| DynamicTable.DefaultCellFormat | src/components/Dynamic/table.ts:49-50 | an empty cell shows "-", where 0 is not empty; any other cell shows as itself |
| DynamicTable.DefaultCellFormatIdempotent | src/components/Dynamic/table.ts:49-50 | formatting a formatted cell changes nothing |
| DynamicTable.InitColumnKeys | src/components/Dynamic/table.ts:56-57 | the keys of `InitColumn` (`INIT_COLUMN`): every default column key stays, in order; configured extra keys follow |
| DynamicTable.InitColumnValues | src/components/Dynamic/table.ts:56-57 | in `InitColumn`, configured keys take the configured value; all others keep the default |
| DynamicTable.ColumnFormatter | src/components/Dynamic/table.ts:49-50 | the default column formats with the default cell formatter |
| DynamicTable.InitColumnFormatsByDefault | src/components/Dynamic/table.ts:56-57 | a column configured without a formatter uses the default one |
| DynamicPermission.CheckDynamicPermission | src/components/Dynamic/permission.ts:10-18 | a falsy request passes; "perms" asks only the permissions, "auth" only the route, and no mode either of them |
| DynamicPermission.UnspecifiedIsEitherMode | src/components/Dynamic/permission.ts:15-17 | without a mode, a request passes iff one of the two explicit modes passes it |
| DynamicPermission.WildcardOpensPermissionGates | src/components/Dynamic/permission.ts:15-17 | the lone wildcard permission passes every gate that asks the permissions |
| DynamicPermission.NoPermissionListFailsPermsGate | src/components/Dynamic/permission.ts:14-15 | with no permission list at all (a state the store never holds), a "perms" gate passes exactly the falsy requests |
| DynamicPermission.LoggedOutPermsGate | src/components/Dynamic/permission.ts:14-15 | after logOut the store holds the empty list (src/store/modules/user.ts:106); a "perms" gate then passes exactly the falsy requests and the empty array, which asks for nothing |

## Left out

- Numbers are mathematical integers: no floating point, `NaN`, `-0` or fractional `exp` claims. `new Date(...)` is its millisecond value.
- JavaScript puts integer-like object keys before the other keys. Objects here keep insertion order for every key.
- Object identity is not modelled. A `Map` finds keys by structural equality, which differs from JavaScript's `SameValueZero` for object keys. `cloneDeep` in `INIT_COLUMN` is the identity.
- ListQuery.ListQuery.Reset: the initial parameters and rows are values here, so `reset()` and `resetParams()` always restore them. In the source `params` wraps the `initialParams` object itself (`useListQuery.ts:51-53, 67`) and `pagination.result` is the `initialPagination.result` array (`useListQuery.ts:68-70`), so a caller who changes either in place through the returned refs also changes what a later reset restores.
- DynamicSchema.InitItem: every filled-in item shares the nested objects and `Map`s of the default form item (`schema.ts:70-75`); changing one in place changes the default for every later item. Here they are values.
- Text lengths count Dafny characters. JavaScript counts UTF-16 code units, so the `% 4` of the base64 normalisation and the index keys `Object.entries` gives a string differ for characters outside the Basic Multilingual Plane.
- AuthToken.GetToken: a token cookie that holds text not written by `setToken` (whose `JSON.parse` may throw or give another value) is read as if the cookie were absent.
- Cookie expiry over time is not simulated. A cookie records how long it is meant to live; only a cookie written already expired is dropped, at the moment it is written.
- `atob` and `JSON.parse` are not modelled. They are the `decode` parameter.
- The HTTP client (`getLogin`, `getUserInfo`) is not modelled. Its replies are parameters. Its response interceptor also calls `logOut()` on a 401 reply, so in the running system a 401 rejection of either request clears the session before `loginByUsername` sees the rejection; `LoginByUsername` promises an unchanged state only for its own steps.
- The router is not modelled. `hasAuth` is a parameter, and `logOut`'s tag reset, `resetRouter()` and `router.push("/login")` are left out.
- `src/router/utils` and `src/store/modules/multiTags` are not part of this model.
- Vue reactivity is not modelled. A `ref` is a field.
- Rendering functions are opaque tags (`Renderer`), so the slot renderers are recorded and not run.
- ListQuery.ListQuery.WithLoading: the executor is asynchronous in the source. Here its outcome is a parameter, and any other action that would interleave while it runs is not modelled.
- Stores.UserStore.SetLoginDay: `Number(value)` is applied to a number, where it is the identity. Other argument types are not modelled.
- `isIncludeAllChildren` comes from `@pureadmin/utils`. It is modelled by its name's meaning (every child is held), so an empty list request is granted.
- `visible` may be a function in a form item. Only the default value is reasoned about.
