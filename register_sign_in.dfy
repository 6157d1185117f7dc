/**
 * Registration against sign-in: `POST /api/auth/register` stores the email exactly as
 * sent, while `authorize` looks the row up by the lower-cased, trimmed email.
 */
module RegisterSignIn {
  import opened Wrappers
  import opened Schema
  import opened Seqs
  import opened Auth
  import opened RegisterRoute

  /**
   * As written: a registered email with an upper-case letter locks its owner out. No
   * credentials whatever sign in as the new row, although the password matches.
   */
  lemma RegisteredMixedCaseLockedOut(users: seq<User>, body: RegisterBody, id: Id, hashed: Option<string>,
                                     email: string, password: string,
                                     compare: (string, string) -> Option<bool>, k: nat)
    requires k < |body.email| && IsUpper(body.email[k])
    requires Authorize(users + [RegisteredRow(id, body, hashed)], email, password, compare).Some?
    ensures Authorize(users + [RegisteredRow(id, body, hashed)], email, password, compare).value.email != body.email
  {
    var all := users + [RegisteredRow(id, body, hashed)];
    UpperCaseRowNeverSignsIn(all, email, password, compare, |users|, k);
  }

  /** The lock-out on a concrete address: signing up as "Alice@example.com" never signs in. */
  lemma AliceLockedOut(id: Id, password: string, hashed: Option<string>, email: string,
                       compare: (string, string) -> Option<bool>)
    ensures var row := RegisteredRow(id, RegisterBody("Alice@example.com", password, ""), hashed);
      Authorize([row], email, password, compare).None?
  {
    var row := RegisteredRow(id, RegisterBody("Alice@example.com", password, ""), hashed);
    if Authorize([row], email, password, compare).Some? {
      assert IsUpper(row.email[0]);
      UpperCaseRowNeverSignsIn([row], email, password, compare, 0, 0);
      assert false;
    }
  }

  /** The row registration evidently intends: the email stored under its lookup key. */
  function NormalisedRow(id: Id, body: RegisterBody, hashed: Option<string>): (r: User)
    ensures r == RegisteredRow(id, body, hashed).(email := LookupKey(body.email))
  {
    User(id, OrNull(body.name), LookupKey(body.email), None, hashed, STUDENT, UserStatus.PENDING)
  }

  /**
   * Corrected: with the email normalised on the way in, and no other row under that key,
   * the new account signs in with the email as typed and the password it was hashed from.
   */
  lemma NormalisedRowSignsIn(users: seq<User>, body: RegisterBody, id: Id, hash: string,
                             compare: (string, string) -> Option<bool>)
    requires body.email != "" && body.password != "" && hash != ""
    requires forall i :: 0 <= i < |users| ==> users[i].email != LookupKey(body.email)
    requires compare(body.password, hash) == Some(true)
    ensures var row := NormalisedRow(id, body, Some(hash));
      Authorize(users + [row], body.email, body.password, compare) == Some(Authorized(row))
  {
    var row := NormalisedRow(id, body, Some(hash));
    var key := LookupKey(body.email);
    FilterSnoc(users, row, HasEmail(key));
    assert Filter(users, HasEmail(key)) == [];
    assert Single(users + [row], key) == Some(row);
  }
}
