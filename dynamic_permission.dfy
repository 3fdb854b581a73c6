/** The single permission gate of the dynamic components
    (`src/components/Dynamic/permission.ts`). */
module DynamicPermission {
  import opened Wrappers
  import opened AuthCodec

  /** `mode`: the login permissions only, the route's `meta.auths` only, or
      (absent or any other value) the permissions first and then the route. */
  datatype Mode = Perms | Auth | Unspecified

  /** `checkDynamicPermission(value, mode)`. `permissions` is the user
      store's list and `hasAuth` the router's check of the current route. */
  function CheckDynamicPermission(value: PermRequest, mode: Mode, permissions: Option<seq<string>>,
                                  hasAuth: PermRequest -> bool): (r: bool)
    ensures IsFalsy(value) ==> r
    ensures !IsFalsy(value) && mode == Perms ==> (r <==> HasPerms(value, permissions))
    ensures !IsFalsy(value) && mode == Auth ==> (r <==> hasAuth(value))
    ensures !IsFalsy(value) && mode == Unspecified ==> (r <==> HasPerms(value, permissions) || hasAuth(value))
  {
    if IsFalsy(value) then true
    else if mode == Perms then HasPerms(value, permissions)
    else if mode == Auth then hasAuth(value)
    else HasPerms(value, permissions) || hasAuth(value)
  }

  /** Without a mode, access is granted exactly when one of the two
      explicit modes grants it. */
  lemma UnspecifiedIsEitherMode(value: PermRequest, permissions: Option<seq<string>>,
                                hasAuth: PermRequest -> bool)
    ensures CheckDynamicPermission(value, Unspecified, permissions, hasAuth)
            <==> CheckDynamicPermission(value, Perms, permissions, hasAuth)
                 || CheckDynamicPermission(value, Auth, permissions, hasAuth)
  {
  }

  /** The wildcard permission opens every gate that consults permissions,
      whatever the route allows. */
  lemma WildcardOpensPermissionGates(value: PermRequest, mode: Mode, hasAuth: PermRequest -> bool)
    requires mode != Auth
    ensures CheckDynamicPermission(value, mode, Some([AllPerms]), hasAuth)
  {
  }

  /** Without any permission list (a state the user store itself never
      holds), a permissions-only gate passes only when nothing is asked for. */
  lemma NoPermissionListFailsPermsGate(value: PermRequest, hasAuth: PermRequest -> bool)
    ensures CheckDynamicPermission(value, Perms, None, hasAuth) <==> IsFalsy(value)
  {
  }

  /** After logging out the store holds the empty list: a permissions-only
      gate then passes a falsy request and the empty array, which asks for
      nothing, and refuses everything else. */
  lemma LoggedOutPermsGate(value: PermRequest, hasAuth: PermRequest -> bool)
    ensures CheckDynamicPermission(value, Perms, Some([]), hasAuth)
            <==> IsFalsy(value) || value == AllOf([])
  {
  }
}
