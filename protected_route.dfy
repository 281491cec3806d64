/** The route guard: send to login without a token, refuse a role not allowed, else render. */
module ProtectedRoute {
  import opened Wrappers
  import opened Domain

  datatype Decision = RedirectToLogin | RedirectToUnauthorized | RenderChildren

  /** The token is truthy: present and not empty. */
  predicate HasToken(token: Option<string>) {
    token.Some? && token.value != ""
  }

  /** `user?.role || ''`. */
  function RoleOf(user: Option<User>): (r: string)
    ensures user.None? ==> r == ""
    ensures user.Some? ==> r == user.value.role
  {
    match user
    case None => ""
    case Some(u) => u.role
  }

  function Guard(token: Option<string>, user: Option<User>, allowedRoles: Option<seq<string>>): (d: Decision)
    ensures d == RedirectToLogin <==> !HasToken(token)
    ensures d == RedirectToUnauthorized <==>
      HasToken(token) && allowedRoles.Some? && RoleOf(user) !in allowedRoles.value
    ensures d == RenderChildren <==>
      HasToken(token) && (allowedRoles.None? || RoleOf(user) in allowedRoles.value)
  {
    if !HasToken(token) then RedirectToLogin
    else if allowedRoles.Some? && RoleOf(user) !in allowedRoles.value then RedirectToUnauthorized
    else RenderChildren
  }

  /** Without a token the roles are never looked at. */
  lemma TokenCheckedFirst(token: Option<string>, user1: Option<User>, user2: Option<User>,
                          roles1: Option<seq<string>>, roles2: Option<seq<string>>)
    requires !HasToken(token)
    ensures Guard(token, user1, roles1) == Guard(token, user2, roles2) == RedirectToLogin
  {
  }

  /** An empty list of allowed roles turns every signed-in user away. */
  lemma EmptyAllowListRefusesAll(token: Option<string>, user: Option<User>)
    requires HasToken(token)
    ensures Guard(token, user, Some([])) == RedirectToUnauthorized
  {
  }

  /** A signed-in session without a user object passes only a list that allows the empty role. */
  lemma MissingUserNeedsEmptyRole(token: Option<string>, roles: seq<string>)
    requires HasToken(token)
    ensures Guard(token, None, Some(roles)) == RenderChildren <==> "" in roles
  {
  }
}
