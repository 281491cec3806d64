/**
 * The user management page: the search and role filters over the user list,
 * the edit form filled from a row, and the payload of a role update.
 */
module UserManage {
  import opened Wrappers
  import opened JsText
  import opened Sequences
  import opened Domain

  /** The body of the user list response; `users` may be missing. */
  datatype UserList = UserList(users: Option<seq<User>>)

  /** `data?.users || []`. */
  function UsersOf(data: Option<UserList>): (r: seq<User>)
    ensures data.Some? && data.value.users.Some? ==> r == data.value.users.value
    ensures data.None? || data.value.users.None? ==> r == []
  {
    match data
    case None => []
    case Some(list) => list.users.GetOr([])
  }

  /** The search box: the term, lower-cased, occurs in the lower-cased username or email. */
  function MatchesSearch(user: User, searchTerm: string): (r: bool)
    ensures r <==>
      (exists i :: OccursAt(ToLower(user.username), ToLower(searchTerm), i))
      || (exists i :: OccursAt(ToLower(user.email), ToLower(searchTerm), i))
    ensures searchTerm == "" ==> r
  {
    IncludesIffOccurs(ToLower(user.username), ToLower(searchTerm));
    IncludesIffOccurs(ToLower(user.email), ToLower(searchTerm));
    IncludesEmpty(ToLower(user.username));
    Includes(ToLower(user.username), ToLower(searchTerm)) || Includes(ToLower(user.email), ToLower(searchTerm))
  }

  /** The role selector: "all", or exactly the user's role. */
  predicate MatchesRole(user: User, roleFilter: string) {
    roleFilter == "all" || user.role == roleFilter
  }

  function UserFiltersTest(searchTerm: string, roleFilter: string): User -> bool {
    u => MatchesSearch(u, searchTerm) && MatchesRole(u, roleFilter)
  }

  /** The rows of the table: the users passing both filters, in list order. */
  function FilteredUsers(data: Option<UserList>, searchTerm: string, roleFilter: string): (r: seq<User>)
    ensures IsSubsequence(r, UsersOf(data))
    ensures forall u :: u in r <==> u in UsersOf(data) && MatchesSearch(u, searchTerm) && MatchesRole(u, roleFilter)
    ensures UsersOf(data) == [] ==> r == []
  {
    var users := UsersOf(data);
    FilterIsSubsequence(users, UserFiltersTest(searchTerm, roleFilter));
    Filter(users, UserFiltersTest(searchTerm, roleFilter))
  }

  /** An empty search with role "all" lists every user. */
  lemma DefaultFiltersListAll(data: Option<UserList>)
    ensures FilteredUsers(data, "", "all") == UsersOf(data)
  {
    var users := UsersOf(data);
    forall u | u in users ensures UserFiltersTest("", "all")(u) {
      IncludesEmpty(ToLower(u.username));
    }
    FilterKeepsAll(users, UserFiltersTest("", "all"));
  }

  /** The edit form. */
  datatype EditForm = EditForm(username: string, email: string, role: string)

  /** The form an edit click fills in, and the user it remembers as being edited. */
  function EditClick(user: User): (r: (Option<User>, EditForm))
    ensures r.0 == Some(user)
    ensures r.1.username == user.username && r.1.email == user.email && r.1.role == user.role
  {
    (Some(user), EditForm(user.username, user.email, user.role))
  }

  /** The role update request: only the user's id and the new role. */
  datatype RoleUpdate = RoleUpdate(userId: string, role: string)

  /** What a submit of the edit form sends; nothing when no user is being edited. */
  function UpdatePayload(editingUser: Option<User>, form: EditForm): (r: Option<RoleUpdate>)
    ensures editingUser.None? <==> r.None?
    ensures r.Some? ==> r.value.userId == editingUser.value.id && r.value.role == form.role
  {
    match editingUser
    case None => None
    case Some(user) => Some(RoleUpdate(user.id, form.role))
  }

  /** Edits to the username or email never reach the request. */
  lemma UpdateIgnoresUsernameAndEmail(editingUser: Option<User>, f1: EditForm, f2: EditForm)
    requires f1.role == f2.role
    ensures UpdatePayload(editingUser, f1) == UpdatePayload(editingUser, f2)
  {
  }

  /** Submitting the form an edit click filled, unchanged, sends the user's current role. */
  lemma UnchangedEditResendsRole(user: User)
    ensures var (editing, form) := EditClick(user);
      UpdatePayload(editing, form) == Some(RoleUpdate(user.id, user.role))
  {
  }
}
