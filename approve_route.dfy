/** `POST /api/admin/approve` (samyoga/app/api/admin/approve/route.ts). */
module ApproveRoute {
  import opened Wrappers
  import opened Schema
  import opened Http
  import opened Sessions
  import opened Store

  /**
   * The request body. `userId` is absent when missing or falsy; `approved` is absent
   * when it is not a JSON boolean.
   */
  datatype ApproveBody = ApproveBody(userId: Option<Id>, approved: Option<bool>)

  /** The success body: the message and the updated user row. */
  datatype Approval = Approval(message: string, user: User)

  /** `approved ? 'APPROVED' : 'REJECTED'`. */
  function Decision(approved: bool): (s: UserStatus)
    ensures s == APPROVED <==> approved
    ensures s == REJECTED <==> !approved
  {
    if approved then APPROVED else REJECTED
  }

  /** `User ${approved ? 'approved' : 'rejected'} successfully`. */
  function Message(approved: bool): string {
    "User " + (if approved then "approved" else "rejected") + " successfully"
  }

  /**
   * Approve or reject a pending user. The status update throws when no user has the
   * id, and the handler answers every throw with 500; the registration stamp runs only
   * after the status update succeeded. The current status is not consulted.
   */
  method Post(db: Studio, session: Session, body: ApproveBody, now: int) returns (r: Response<Approval>)
    requires db.Valid()
    modifies db
    ensures db.Valid()
    ensures !IsAdmin(session) ==> r == Err(401, "Unauthorized")
    ensures IsAdmin(session) && (body.userId.None? || body.approved.None?) ==> r == Err(400, "Invalid request")
    ensures IsAdmin(session) && body.userId.Some? && body.approved.Some?
            && FindUser(old(db.users), body.userId.value).None?
            ==> r == Err(500, "Failed to update user status")
    ensures r.Ok? <==> IsAdmin(session) && body.userId.Some? && body.approved.Some?
                       && FindUser(old(db.users), body.userId.value).Some?
    ensures !r.Ok? ==> unchanged(db)
    ensures r.Ok? ==>
      && r.status == 200
      && r.body.message == Message(body.approved.value)
      && r.body.user == FindUser(old(db.users), body.userId.value).value.(status := Decision(body.approved.value))
      && db.users == WithStatus(old(db.users), body.userId.value, Decision(body.approved.value))
      && db.registrations == WithReview(old(db.registrations), body.userId.value, now, session.value.id)
      && db.classes == old(db.classes) && db.bookings == old(db.bookings)
      && db.payments == old(db.payments) && db.progress == old(db.progress)
      && db.memory == old(db.memory) && db.nextId == old(db.nextId)
  {
    if !IsAdmin(session) {
      return Err(401, "Unauthorized");
    }
    if body.userId.None? || body.approved.None? {
      return Err(400, "Invalid request");
    }
    var userId, approved := body.userId.value, body.approved.value;
    var found := FindUser(db.users, userId);
    if found.None? {
      return Err(500, "Failed to update user status");
    }
    db.SetUserStatus(userId, Decision(approved));
    db.StampReviews(userId, now, session.value.id);
    r := Ok(200, Approval(Message(approved), found.value.(status := Decision(approved))));
  }

  /**
   * The transition ignores the status the user had: whatever an earlier call set,
   * a decision leaves the users exactly as deciding on the original table does.
   */
  lemma DecisionIgnoresPriorStatus(users: seq<User>, userId: Id, prior: UserStatus, approved: bool)
    ensures WithStatus(WithStatus(users, userId, prior), userId, Decision(approved))
         == WithStatus(users, userId, Decision(approved))
  {
    var before := WithStatus(users, userId, prior);
    assert forall i :: 0 <= i < |users| ==>
      WithStatus(before, userId, Decision(approved))[i] == WithStatus(users, userId, Decision(approved))[i];
  }

  /** Repeating the same decision leaves the users as the first call left them. */
  lemma StatusIdempotent(users: seq<User>, userId: Id, status: UserStatus)
    ensures WithStatus(WithStatus(users, userId, status), userId, status) == WithStatus(users, userId, status)
  {
    var once := WithStatus(users, userId, status);
    assert forall i :: 0 <= i < |users| ==> WithStatus(once, userId, status)[i] == once[i];
  }

  /** Repeating the same stamp leaves the registrations as the first call left them. */
  lemma ReviewIdempotent(registrations: seq<Registration>, userId: Id, at: int, reviewer: Option<Id>)
    ensures WithReview(WithReview(registrations, userId, at, reviewer), userId, at, reviewer)
         == WithReview(registrations, userId, at, reviewer)
  {
    var once := WithReview(registrations, userId, at, reviewer);
    assert forall i :: 0 <= i < |registrations| ==> WithReview(once, userId, at, reviewer)[i] == once[i];
  }

  /**
   * A later review of the same user overrides an earlier one: the registrations keep
   * only the last instant and reviewer, as if the first review had not happened.
   */
  lemma LastReviewWins(registrations: seq<Registration>, userId: Id, at1: int, admin1: Id, at2: int, admin2: Id)
    ensures WithReview(WithReview(registrations, userId, at1, Some(admin1)), userId, at2, Some(admin2))
         == WithReview(registrations, userId, at2, Some(admin2))
  {
    var first := WithReview(registrations, userId, at1, Some(admin1));
    assert forall i :: 0 <= i < |registrations| ==>
      WithReview(first, userId, at2, Some(admin2))[i] == WithReview(registrations, userId, at2, Some(admin2))[i];
  }
}
