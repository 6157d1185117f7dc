/** `POST /api/auth/register` (samyoga/app/api/auth/register/route.ts). */
module RegisterRoute {
  import opened Wrappers
  import opened Text
  import opened Schema
  import opened Http
  import opened Store

  /** The request body; a missing or falsy field is the empty string. */
  datatype RegisterBody = RegisterBody(email: string, password: string, name: string)

  /** A run of `[^\s@]`: no whitespace and no '@'. */
  predicate Plain(t: string) {
    forall k :: 0 <= k < |t| ==> !IsSpace(t[k]) && t[k] != '@'
  }

  /**
   * `/^[^\s@]+@[^\s@]+\.[^\s@]+$/.test(s)`: the whole string splits as a plain local
   * part, '@', a plain domain label, '.', and a plain rest, each part non-empty.
   */
  predicate EmailPattern(s: string) {
    exists i, j | 0 < i && i + 1 < j < |s| - 1 ::
      s[i] == '@' && s[j] == '.' && Plain(s[..i]) && Plain(s[i + 1..j]) && Plain(s[j + 1..])
  }

  /** No whitespace anywhere in `s`. */
  predicate NoSpace(s: string) {
    forall k :: 0 <= k < |s| ==> !IsSpace(s[k])
  }

  /** The only '@' of `s` is at index `i`. */
  predicate OnlyAtSign(s: string, i: int) {
    0 <= i < |s| && s[i] == '@' && forall k :: 0 <= k < |s| && k != i ==> s[k] != '@'
  }

  /**
   * The shape the pattern accepts, stated without splitting: no whitespace, exactly one
   * '@' and it is not first, and a '.' after the '@' with a character on each side of it.
   */
  predicate EmailShape(s: string) {
    && NoSpace(s)
    && exists i | 0 < i < |s| :: OnlyAtSign(s, i) && exists j | i + 1 < j < |s| - 1 :: s[j] == '.'
  }

  lemma PlainPieces(s: string, i: int, j: int)
    requires 0 < i && i + 1 < j < |s| - 1 && s[i] == '@' && s[j] == '.'
    ensures Plain(s[..i]) && Plain(s[i + 1..j]) && Plain(s[j + 1..])
      <==> NoSpace(s) && OnlyAtSign(s, i)
  {
    if Plain(s[..i]) && Plain(s[i + 1..j]) && Plain(s[j + 1..]) {
      forall k | 0 <= k < |s| ensures !IsSpace(s[k]) && (k != i ==> s[k] != '@') {
        if k < i {
          assert s[k] == s[..i][k];
        } else if i < k < j {
          assert s[k] == s[i + 1..j][k - i - 1];
        } else if j < k {
          assert s[k] == s[j + 1..][k - j - 1];
        }
      }
    }
  }

  /** The pattern accepts exactly the strings of the stated shape. */
  lemma EmailPatternShape(s: string)
    ensures EmailPattern(s) <==> EmailShape(s)
  {
    if EmailPattern(s) {
      var i, j :| 0 < i && i + 1 < j < |s| - 1 &&
        s[i] == '@' && s[j] == '.' && Plain(s[..i]) && Plain(s[i + 1..j]) && Plain(s[j + 1..]);
      PlainPieces(s, i, j);
    }
    if EmailShape(s) {
      var i :| 0 < i < |s| && OnlyAtSign(s, i) && exists j | i + 1 < j < |s| - 1 :: s[j] == '.';
      var j :| i + 1 < j < |s| - 1 && s[j] == '.';
      PlainPieces(s, i, j);
    }
  }

  const RequiredMessage := "Email and password are required"
  const FormatMessage := "Invalid email format"
  const LengthMessage := "Password must be at least 6 characters"
  const DuplicateMessage := "User with this email already exists"

  /** The body passes every check, given the users already stored. */
  predicate Acceptable(users: seq<User>, body: RegisterBody) {
    && body.email != "" && body.password != ""
    && EmailPattern(body.email)
    && |body.password| >= 6
    && !EmailTaken(users, body.email)
  }

  /**
   * The `ValidationError` the checks raise, if any: presence, email format, password
   * length, then an exact-email duplicate lookup. The first failing check decides.
   */
  function Validate(users: seq<User>, body: RegisterBody): (r: Option<string>)
    ensures r.None? <==> Acceptable(users, body)
    ensures body.email == "" || body.password == "" ==> r == Some(RequiredMessage)
    ensures body.email != "" && body.password != "" && !EmailPattern(body.email)
      ==> r == Some(FormatMessage)
    ensures body.email != "" && body.password != "" && EmailPattern(body.email) && |body.password| < 6
      ==> r == Some(LengthMessage)
    ensures body.email != "" && body.password != "" && EmailPattern(body.email) && |body.password| >= 6
      && EmailTaken(users, body.email)
      ==> r == Some(DuplicateMessage)
  {
    if body.email == "" || body.password == "" then Some(RequiredMessage)
    else if !EmailPattern(body.email) then Some(FormatMessage)
    else if |body.password| < 6 then Some(LengthMessage)
    else if EmailTaken(users, body.email) then Some(DuplicateMessage)
    else None
  }

  /** The error body for anything that is not a `ValidationError`. */
  const InternalMessage := "Internal server error"

  /** The row an accepted registration appends: a pending student, the email as sent. */
  function RegisteredRow(id: Id, body: RegisterBody, hashed: Option<string>): (r: User)
    ensures r.id == id && r.email == body.email && r.password == hashed && r.image.None?
    ensures r.role == STUDENT && r.status == UserStatus.PENDING
    ensures body.name != "" ==> r.name == Some(body.name)
    ensures body.name == "" ==> r.name.None?
  {
    User(id, OrNull(body.name), body.email, None, hashed, STUDENT, UserStatus.PENDING)
  }

  /**
   * Register an account. `hashed` is what `bcrypt.hash(password, 10)` gives, or `None`
   * when it throws; a throw is not a `ValidationError`, so it is answered with 500.
   * The email is looked up and stored exactly as sent.
   */
  method Post(db: Studio, body: RegisterBody, hashed: Option<string>) returns (r: Response<Id>)
    requires db.Valid()
    modifies db
    ensures db.Valid()
    ensures Validate(old(db.users), body).Some? ==> r == Err(400, Validate(old(db.users), body).value)
    ensures Validate(old(db.users), body).None? && hashed.None? ==> r == Err(500, InternalMessage)
    ensures r.Ok? <==> Acceptable(old(db.users), body) && hashed.Some?
    ensures !r.Ok? ==> unchanged(db)
    ensures r.Ok? ==>
      && r == Ok(201, old(db.nextId))
      && db.users == old(db.users) + [RegisteredRow(old(db.nextId), body, hashed)]
      && db.nextId == old(db.nextId) + 1
      && db.registrations == old(db.registrations) && db.classes == old(db.classes)
      && db.bookings == old(db.bookings) && db.payments == old(db.payments)
      && db.progress == old(db.progress) && db.memory == old(db.memory)
  {
    var invalid := Validate(db.users, body);
    if invalid.Some? {
      return Err(400, invalid.value);
    }
    if hashed.None? {
      return Err(500, InternalMessage);
    }
    var id := db.AddUser(OrNull(body.name), body.email, hashed, STUDENT, UserStatus.PENDING);
    r := Ok(201, id);
  }

  /** Once an email is registered, the same body is refused as a duplicate. */
  lemma SecondRegistrationRefused(users: seq<User>, body: RegisterBody, u: User)
    requires Acceptable(users, body)
    requires u.email == body.email
    ensures Validate(users + [u], body) == Some(DuplicateMessage)
  {
    assert (users + [u])[|users|] == u;
  }

  /** The duplicate check is on the exact string: a differently cased email is not a duplicate. */
  lemma DuplicateIsCaseSensitive(users: seq<User>, body: RegisterBody, u: User)
    requires Acceptable(users, body)
    requires u.email != body.email
    ensures Validate(users + [u], body).None?
  {
    assert forall i :: 0 <= i < |users| ==> (users + [u])[i] == users[i];
  }
}
