/**
 * The zod schemas of the login and registration forms. Each failed check
 * gives one issue; every check of every field runs, in declaration order.
 * zod's `.email()` format test is the parameter `isEmail`.
 */
module AuthValidation {

  datatype Issue = Issue(path: string, message: string)

  const EmailRequired := "Email is required"
  const InvalidEmail := "Invalid email format"
  const PasswordTooShort := "Password must be at least 6 characters"
  const NameTooShort := "Full name must be at least 5 characters"
  const RoleRequired := "Please select a role"

  /** `z.string().min(n, message)` on the field `path`. */
  function MinLength(path: string, value: string, n: nat, message: string): (r: seq<Issue>)
    ensures r == [] <==> |value| >= n
    ensures r != [] ==> r == [Issue(path, message)]
  {
    if |value| >= n then [] else [Issue(path, message)]
  }

  /** `z.string().min(1, ...).email(...)`. */
  function EmailIssues(email: string, isEmail: string -> bool): (r: seq<Issue>)
    ensures r == [] <==> email != "" && isEmail(email)
    ensures email == "" ==> |r| >= 1 && r[0] == Issue("email", EmailRequired)
  {
    MinLength("email", email, 1, EmailRequired) + (if isEmail(email) then [] else [Issue("email", InvalidEmail)])
  }

  function PasswordIssues(password: string): (r: seq<Issue>)
    ensures r == [] <==> |password| >= 6
  {
    MinLength("password", password, 6, PasswordTooShort)
  }

  /** `loginSchema`. */
  function LoginIssues(email: string, password: string, isEmail: string -> bool): (r: seq<Issue>)
    ensures r == [] <==> email != "" && isEmail(email) && |password| >= 6
  {
    EmailIssues(email, isEmail) + PasswordIssues(password)
  }

  /** `registerSchema`. */
  function RegisterIssues(username: string, email: string, password: string, role: string, isEmail: string -> bool)
    : (r: seq<Issue>)
    ensures r == [] <==> |username| >= 5 && email != "" && isEmail(email) && |password| >= 6 && role != ""
  {
    MinLength("username", username, 5, NameTooShort)
      + EmailIssues(email, isEmail)
      + PasswordIssues(password)
      + MinLength("role", role, 1, RoleRequired)
  }

  /** An empty email is reported as required by both schemas. */
  lemma EmptyEmailIsRequired(password: string, username: string, role: string, isEmail: string -> bool)
    ensures Issue("email", EmailRequired) in LoginIssues("", password, isEmail)
    ensures Issue("email", EmailRequired) in RegisterIssues(username, "", password, role, isEmail)
  {
    var issues := EmailIssues("", isEmail);
    assert LoginIssues("", password, isEmail)[0] == issues[0];
    var prefix := MinLength("username", username, 5, NameTooShort);
    assert RegisterIssues(username, "", password, role, isEmail)[|prefix|] == issues[0];
  }

  /** The two schemas judge the email and the password alike. */
  lemma SchemasAgreeOnCredentials(email: string, password: string, username: string, role: string,
                                  isEmail: string -> bool)
    requires |username| >= 5 && role != ""
    ensures LoginIssues(email, password, isEmail) == [] <==> RegisterIssues(username, email, password, role, isEmail) == []
  {
  }

  /** The role check accepts any non-empty string, not only the three roles. */
  lemma AnyNonEmptyRolePasses(username: string, email: string, password: string, role: string,
                              isEmail: string -> bool)
    requires |username| >= 5 && email != "" && isEmail(email) && |password| >= 6
    requires role != "admin" && role != "inspector" && role != "viewer" && role != ""
    ensures RegisterIssues(username, email, password, role, isEmail) == []
  {
  }
}
