/**
 * The session as the route handlers see it (`await auth()`): absent, or a user
 * whose id, role and status were copied from the token and may each be missing.
 */
module Sessions {
  import opened Wrappers
  import opened Schema

  datatype SessionUser = SessionUser(id: Option<Id>, role: Option<Role>, status: Option<UserStatus>)

  type Session = Option<SessionUser>

  /** `session?.user?.id && session.user.status === 'APPROVED'`: the student-route guard. */
  predicate IsApprovedUser(s: Session) {
    s.Some? && s.value.id.Some? && s.value.status == Some(APPROVED)
  }

  /** `session?.user && session.user.role === 'ADMIN'`: the admin-route guard. */
  predicate IsAdmin(s: Session) {
    s.Some? && s.value.role == Some(ADMIN)
  }

  /** `session?.user?.id`. */
  predicate HasUserId(s: Session) {
    s.Some? && s.value.id.Some?
  }
}
