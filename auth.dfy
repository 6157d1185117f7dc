/**
 * Credential sign-in and the token/session callbacks (samyoga/auth.ts). The user row
 * is looked up in the `User` table; the bcrypt comparison is the parameter `compare`.
 */
module Auth {
  import opened Wrappers
  import opened Text
  import opened Schema
  import opened Seqs
  import opened Sessions

  /** What a successful `authorize` returns: six fields of the stored row. */
  datatype AuthorizedUser = AuthorizedUser(
    id: Id,
    email: string,
    name: Option<string>,
    image: Option<string>,
    role: Role,
    status: UserStatus)

  /** `email.toLowerCase().trim()`: the key the row is looked up by. */
  function LookupKey(email: string): string {
    Trim(Lower(email))
  }

  predicate IsUpper(c: char) {
    'A' <= c <= 'Z'
  }

  /** Each character of the lookup key is the lower-cased character of the email at some index. */
  lemma LookupKeyChar(email: string, i: nat)
    requires i < |LookupKey(email)|
    ensures exists j :: 0 <= j < |email| && LookupKey(email)[i] == LowerChar(email[j])
  {
    var l := Lower(email);
    var t := TrimStart(l);
    var j := |l| - |t| + i;
    assert LookupKey(email)[i] == t[i] == l[j];
  }

  /** The lookup key holds no upper-case letter. */
  lemma LookupKeyIsLower(email: string)
    ensures forall i :: 0 <= i < |LookupKey(email)| ==> !IsUpper(LookupKey(email)[i])
  {
    forall i | 0 <= i < |LookupKey(email)| ensures !IsUpper(LookupKey(email)[i]) {
      LookupKeyChar(email, i);
    }
  }

  function HasEmail(key: string): User -> bool {
    (u: User) => u.email == key
  }

  /** `.eq('email', key).single()`: the row when exactly one matches, otherwise an error. */
  function Single(users: seq<User>, key: string): (r: Option<User>)
    ensures r.Some? <==> |Filter(users, HasEmail(key))| == 1
    ensures r.Some? ==> r.value in users && r.value.email == key
  {
    var rows := Filter(users, HasEmail(key));
    if |rows| == 1 then Some(rows[0]) else None
  }

  function Authorized(u: User): (r: AuthorizedUser)
    ensures r.id == u.id && r.email == u.email && r.name == u.name && r.image == u.image
    ensures r.role == u.role && r.status == u.status
  {
    AuthorizedUser(u.id, u.email, u.name, u.image, u.role, u.status)
  }

  /**
   * `authorize(credentials)`: a missing (empty) email or password, no single matching row,
   * a row without a password hash, a failed comparison, or an error thrown by the
   * comparison (`None`) all give `null`; otherwise the row's six fields.
   */
  function Authorize(users: seq<User>, email: string, password: string,
                     compare: (string, string) -> Option<bool>): (r: Option<AuthorizedUser>)
    ensures email == "" || password == "" ==> r.None?
    ensures r.Some? <==>
      && email != "" && password != ""
      && Single(users, LookupKey(email)).Some?
      && var u := Single(users, LookupKey(email)).value;
      && u.password.Some? && u.password.value != ""
      && compare(password, u.password.value) == Some(true)
    ensures r.Some? ==>
      exists i :: 0 <= i < |users| && users[i].email == LookupKey(email) && r.value == Authorized(users[i])
  {
    if email == "" || password == "" then None
    else
      var found := Single(users, LookupKey(email));
      if found.None? then None
      else if found.value.password.None? || found.value.password.value == "" then None
      else if compare(password, found.value.password.value) != Some(true) then None
      else Some(Authorized(found.value))
  }

  /** The signed-in email is always the normalised one. */
  lemma SignedInEmailIsLookupKey(users: seq<User>, email: string, password: string,
                                 compare: (string, string) -> Option<bool>)
    requires Authorize(users, email, password, compare).Some?
    ensures Authorize(users, email, password, compare).value.email == LookupKey(email)
  {
  }

  /**
   * A row whose stored email holds an upper-case letter can never be the one signed in,
   * whatever credentials are given: the lookup key is lower-cased first.
   */
  lemma UpperCaseRowNeverSignsIn(users: seq<User>, email: string, password: string,
                                 compare: (string, string) -> Option<bool>, i: nat, k: nat)
    requires i < |users| && k < |users[i].email| && IsUpper(users[i].email[k])
    requires Authorize(users, email, password, compare).Some?
    ensures Authorize(users, email, password, compare).value.email != users[i].email
  {
    LookupKeyIsLower(email);
  }

  /** Emails that differ only in letter case or surrounding blanks find the same row. */
  lemma CaseAndBlanksIgnored(users: seq<User>, email: string, other: string, password: string,
                             compare: (string, string) -> Option<bool>)
    requires LookupKey(email) == LookupKey(other) && email != "" && other != ""
    ensures Authorize(users, email, password, compare) == Authorize(users, other, password, compare)
  {
  }

  /** The JWT: the subject, role and status fields the callbacks read and write. */
  class Token {
    var sub: Option<Id>
    var role: Option<Role>
    var status: Option<UserStatus>

    constructor (sub: Option<Id>, role: Option<Role>, status: Option<UserStatus>)
      ensures this.sub == sub && this.role == role && this.status == status
    {
      this.sub := sub;
      this.role := role;
      this.status := status;
    }
  }

  /** The session object handed to the `session` callback; `user` is absent or the user fields. */
  class AuthSession {
    var user: Option<SessionUser>

    constructor (user: Option<SessionUser>)
      ensures this.user == user
    {
      this.user := user;
    }

    /** The session as the route handlers see it. */
    function View(): Session
      reads this
    {
      user
    }
  }

  /** `jwt({ token, user })`: on sign-in the user's id, role and status go into the token. */
  method Jwt(token: Token, user: Option<AuthorizedUser>) returns (r: Token)
    modifies token
    ensures r == token
    ensures user.Some? ==>
      token.sub == Some(user.value.id) && token.role == Some(user.value.role) && token.status == Some(user.value.status)
    ensures user.None? ==> unchanged(token)
  {
    if user.Some? {
      token.sub := Some(user.value.id);
      token.role := Some(user.value.role);
      token.status := Some(user.value.status);
    }
    return token;
  }

  /** `session({ session, token })`: when both are present the token's fields go into `session.user`. */
  method SessionCallback(session: AuthSession, token: Token?) returns (r: AuthSession)
    modifies session
    ensures r == session
    ensures old(session.user).Some? && token != null ==>
      session.user == Some(SessionUser(token.sub, token.role, token.status))
    ensures old(session.user).None? || token == null ==> unchanged(session)
  {
    if session.user.Some? && token != null {
      session.user := Some(SessionUser(token.sub, token.role, token.status));
    }
    return session;
  }

  /**
   * Signing in and then reading the session: the route guards see exactly the stored
   * row's id, role and status.
   */
  method SignIn(token: Token, session: AuthSession, user: AuthorizedUser) returns (s: Session)
    requires session.user.Some?
    modifies token, session
    ensures s == session.View() == Some(SessionUser(Some(user.id), Some(user.role), Some(user.status)))
    ensures IsAdmin(s) <==> user.role == ADMIN
    ensures IsApprovedUser(s) <==> user.status == APPROVED
  {
    var t := Jwt(token, Some(user));
    var updated := SessionCallback(session, t);
    s := updated.View();
  }
}
