/**
 * The client-side session guards of the dashboard and admin pages: what a page does
 * for the `useSession()` status and user (samyoga/app/dashboard/classes/page.tsx,
 * samyoga/app/dashboard/payments/page.tsx, samyoga/app/admin/students/page.tsx).
 */
module PageGuards {
  import opened Wrappers
  import opened Schema
  import opened Sessions

  /** `useSession().status`. */
  datatype AuthStatus = Loading | Unauthenticated | Authenticated

  /** What the page's effect does: nothing yet, a redirect, or load its data. */
  datatype PageAction = Wait | ToSignIn | ToPending | ToAdmin | ToDashboard | Load

  /**
   * The student pages' effect: sign-in first, then the pending page for any user not
   * APPROVED (admins included), then /admin for an approved admin, then the fetch.
   */
  function StudentPageAction(status: AuthStatus, session: Session): (r: PageAction)
    ensures r == ToSignIn <==> status == Unauthenticated
    ensures r == ToPending <==> status == Authenticated && !IsApprovedStatus(session)
    ensures r == ToAdmin <==> status == Authenticated && IsApprovedStatus(session) && IsAdmin(session)
    ensures r == Load <==> status == Authenticated && IsApprovedStatus(session) && !IsAdmin(session)
    ensures r == Wait <==> status == Loading
  {
    match status
    case Unauthenticated => ToSignIn
    case Authenticated =>
      if !IsApprovedStatus(session) then ToPending
      else if IsAdmin(session) then ToAdmin
      else Load
    case Loading => Wait
  }

  /** `session?.user?.status === 'APPROVED'`. */
  predicate IsApprovedStatus(session: Session) {
    session.Some? && session.value.status == Some(APPROVED)
  }

  /**
   * The admin pages' effect: sign-in first, then /dashboard for anyone not an admin,
   * then the fetch.
   */
  function AdminPageAction(status: AuthStatus, session: Session): (r: PageAction)
    ensures r == ToSignIn <==> status == Unauthenticated
    ensures r == ToDashboard <==> status == Authenticated && !IsAdmin(session)
    ensures r == Load <==> status == Authenticated && IsAdmin(session)
    ensures r == Wait <==> status == Loading
  {
    match status
    case Unauthenticated => ToSignIn
    case Authenticated => if !IsAdmin(session) then ToDashboard else Load
    case Loading => Wait
  }

  /** A pending admin is sent to the pending page, not to /admin. */
  lemma PendingAdminIsPending(id: Option<Id>)
    ensures StudentPageAction(Authenticated, Some(SessionUser(id, Some(ADMIN), Some(UserStatus.PENDING)))) == ToPending
  {
  }

  /** The student pages load data only for a session the student API routes accept. */
  lemma LoadOnlyForApprovedStudents(status: AuthStatus, session: Session)
    requires StudentPageAction(status, session) == Load
    ensures session.Some? && session.value.status == Some(APPROVED) && !IsAdmin(session)
  {
  }
}
