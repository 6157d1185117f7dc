/** `GET /api/dashboard/classes` (samyoga/app/api/dashboard/classes/route.ts). */
module ClassesRoute {
  import opened Wrappers
  import opened Schema
  import opened Seqs
  import opened Sorting
  import opened Http
  import opened Sessions
  import opened Store

  /** One entry of the student's class list. */
  datatype StudentClass = StudentClass(
    id: Id,
    title: string,
    description: Option<string>,
    kind: ClassType,
    date: int,
    duration: int,
    meetLink: Option<string>,
    status: ClassStatus,
    bookingStatus: Option<BookingStatus>)

  /** The booking belongs to this user and this class. */
  predicate IsBookingOf(b: Booking, classId: Id, userId: Id) {
    b.classId == classId && b.userId == userId
  }

  /**
   * `classItem.bookings[0]?.status || null` with the bookings restricted to the user:
   * the status of the user's first booking of the class, or null.
   */
  function BookingStatusFor(bookings: seq<Booking>, classId: Id, userId: Id): (r: Option<BookingStatus>)
    ensures r.None? <==> forall i :: 0 <= i < |bookings| ==> !IsBookingOf(bookings[i], classId, userId)
    ensures r.Some? ==>
      exists k ::
        && 0 <= k < |bookings| && IsBookingOf(bookings[k], classId, userId)
        && r.value == bookings[k].status
        && forall m :: 0 <= m < k ==> !IsBookingOf(bookings[m], classId, userId)
  {
    if bookings == [] then None
    else if IsBookingOf(bookings[0], classId, userId) then Some(bookings[0].status)
    else
      var rest := BookingStatusFor(bookings[1..], classId, userId);
      assert forall i :: 1 <= i < |bookings| ==> bookings[i] == bookings[1..][i - 1];
      rest
  }

  function OfUser(userId: Id): Booking -> bool {
    (b: Booking) => b.userId == userId
  }

  /** Other users' bookings never affect the booking status shown to a user. */
  lemma {:induction false} OtherUsersIrrelevant(bookings: seq<Booking>, classId: Id, userId: Id)
    ensures BookingStatusFor(bookings, classId, userId)
         == BookingStatusFor(Filter(bookings, OfUser(userId)), classId, userId)
  {
    if bookings != [] {
      var b, f := bookings[0], Filter(bookings[1..], OfUser(userId));
      OtherUsersIrrelevant(bookings[1..], classId, userId);
      if b.userId == userId {
        assert Filter(bookings, OfUser(userId)) == [b] + f;
        assert ([b] + f)[1..] == f;
      } else {
        assert Filter(bookings, OfUser(userId)) == f;
      }
    }
  }

  /**
   * When all of the user's bookings of the class share one status, the status shown is
   * that one, whichever of them the database returns first.
   */
  lemma UniformStatusShown(bookings: seq<Booking>, classId: Id, userId: Id, s: BookingStatus)
    requires exists i :: 0 <= i < |bookings| && IsBookingOf(bookings[i], classId, userId)
    requires forall i :: 0 <= i < |bookings| && IsBookingOf(bookings[i], classId, userId) ==> bookings[i].status == s
    ensures BookingStatusFor(bookings, classId, userId) == Some(s)
  {
  }

  /** The list entry of a class for the user. */
  function Entry(c: Class, bookings: seq<Booking>, userId: Id): (r: StudentClass)
    ensures r.id == c.id && r.date == c.date && r.status == c.status
    ensures r.title == c.title && r.description == c.description && r.kind == c.kind
    ensures r.duration == c.duration && r.meetLink == c.meetLink
    ensures r.bookingStatus == BookingStatusFor(bookings, c.id, userId)
  {
    StudentClass(c.id, c.title, c.description, c.kind, c.date, c.duration, c.meetLink, c.status,
                 BookingStatusFor(bookings, c.id, userId))
  }

  function EntryOf(bookings: seq<Booking>, userId: Id): Class -> StudentClass {
    (c: Class) => Entry(c, bookings, userId)
  }

  /** `orderBy: { date: 'asc' }`. */
  function EarlierFirst(a: StudentClass, b: StudentClass): bool {
    a.date <= b.date
  }

  lemma EarlierFirstTotal()
    ensures TotalPreorder(EarlierFirst)
  {
  }

  /**
   * Every class, of any status, exactly once, earliest first, each with the user's
   * booking status. Classes on the same date may come in any order.
   */
  function ClassList(classes: seq<Class>, bookings: seq<Booking>, userId: Id): (r: seq<StudentClass>)
    ensures |r| == |classes|
    ensures multiset(r) == multiset(Map(classes, EntryOf(bookings, userId)))
    ensures SortedBy(r, EarlierFirst)
    ensures forall i :: 0 <= i < |r| ==> r[i].bookingStatus == BookingStatusFor(bookings, r[i].id, userId)
  {
    var entries := Map(classes, EntryOf(bookings, userId));
    EarlierFirstTotal();
    SortBySorted(entries, EarlierFirst);
    var r := SortBy(entries, EarlierFirst);
    assert forall i :: 0 <= i < |r| ==> r[i] in multiset(entries);
    r
  }

  /** 401 unless the session has an id and is approved; otherwise the user's class list. */
  function Get(db: Studio, session: Session): (r: Response<seq<StudentClass>>)
    reads db
    ensures !IsApprovedUser(session) ==> r == Err(401, "Unauthorized")
    ensures IsApprovedUser(session) ==>
      && r.Ok? && r.status == 200 && SortedBy(r.body, EarlierFirst)
      && multiset(r.body) == multiset(Map(db.classes, EntryOf(db.bookings, session.value.id.value)))
  {
    if !IsApprovedUser(session) then Err(401, "Unauthorized")
    else Ok(200, ClassList(db.classes, db.bookings, session.value.id.value))
  }
}
