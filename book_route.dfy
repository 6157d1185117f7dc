/** `POST /api/dashboard/classes/book` (samyoga/app/api/dashboard/classes/book/route.ts). */
module BookRoute {
  import opened Wrappers
  import opened Schema
  import opened Http
  import opened Sessions
  import opened Store

  /** `classItem.bookings.length >= classItem.maxStudents`: every booking counts, whatever its status. */
  predicate IsFull(c: Class, bookings: seq<Booking>) {
    |BookingsOfClass(bookings, c.id)| >= c.maxStudents
  }

  /** The request gets past every guard and the booking is written. */
  predicate Books(classes: seq<Class>, bookings: seq<Booking>, session: Session, classId: Option<Id>) {
    && IsApprovedUser(session)
    && classId.Some?
    && FindClass(classes, classId.value).Some?
    && !IsFull(FindClass(classes, classId.value).value, bookings)
  }

  /**
   * Book a class for the session user. The guards run in the source's order:
   * session (401), class id present (400), class exists (404), class not full (400).
   * There is no check that the user has not booked this class already.
   */
  method Post(db: Studio, session: Session, classId: Option<Id>, now: int) returns (r: Response<string>)
    requires db.Valid()
    modifies db
    ensures db.Valid()
    ensures !IsApprovedUser(session) ==> r == Err(401, "Unauthorized")
    ensures IsApprovedUser(session) && classId.None? ==> r == Err(400, "Class ID is required")
    ensures IsApprovedUser(session) && classId.Some? && FindClass(old(db.classes), classId.value).None?
            ==> r == Err(404, "Class not found")
    ensures IsApprovedUser(session) && classId.Some? && FindClass(old(db.classes), classId.value).Some?
            && IsFull(FindClass(old(db.classes), classId.value).value, old(db.bookings))
            ==> r == Err(400, "Class is full")
    ensures r.Ok? <==> Books(old(db.classes), old(db.bookings), session, classId)
    ensures !r.Ok? ==> unchanged(db)
    ensures r.Ok? ==>
      && r == Ok(200, "Class booked successfully")
      && db.bookings == old(db.bookings) + [Booking(old(db.nextId), session.value.id.value, classId.value, CONFIRMED, now)]
      && db.nextId == old(db.nextId) + 1
      && db.users == old(db.users) && db.registrations == old(db.registrations)
      && db.classes == old(db.classes) && db.payments == old(db.payments)
      && db.progress == old(db.progress) && db.memory == old(db.memory)
    ensures r.Ok? ==>
      |BookingsOfClass(db.bookings, classId.value)| <= Capacity(FindClass(db.classes, classId.value).value)
  {
    if !IsApprovedUser(session) {
      return Err(401, "Unauthorized");
    }
    if classId.None? {
      return Err(400, "Class ID is required");
    }
    var classItem := FindClass(db.classes, classId.value);
    if classItem.None? {
      return Err(404, "Class not found");
    }
    if IsFull(classItem.value, db.bookings) {
      return Err(400, "Class is full");
    }
    var k :| 0 <= k < |db.classes| && db.classes[k] == classItem.value;
    BookingsOfClassSnoc(db.bookings, Booking(db.nextId, session.value.id.value, classId.value, CONFIRMED, now), classId.value);
    db.AddBooking(session.value.id.value, classId.value, CONFIRMED, now, k);
    r := Ok(200, "Class booked successfully");
  }

  /**
   * A booking just written does not stop the same user booking the same class again:
   * while a place is left, the repeated request passes every guard.
   */
  lemma RepeatBookingAccepted(classes: seq<Class>, bookings: seq<Booking>, session: Session, classId: Option<Id>, id: Id, now: int)
    requires Books(classes, bookings, session, classId)
    requires |BookingsOfClass(bookings, classId.value)| + 1 < FindClass(classes, classId.value).value.maxStudents
    ensures Books(classes, bookings + [Booking(id, session.value.id.value, classId.value, CONFIRMED, now)], session, classId)
  {
    BookingsOfClassSnoc(bookings, Booking(id, session.value.id.value, classId.value, CONFIRMED, now), classId.value);
  }
}
