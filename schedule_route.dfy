/** `GET` and `POST /api/admin/schedule` (samyoga/app/api/admin/schedule/route.ts). */
module ScheduleRoute {
  import opened Wrappers
  import opened Schema
  import opened Seqs
  import opened Sorting
  import opened Http
  import opened Sessions
  import opened Store

  /** One entry of the GET listing: the class's columns and `_count.bookings`. */
  datatype ClassSummary = ClassSummary(
    id: Id,
    title: string,
    description: Option<string>,
    kind: ClassType,
    date: int,
    duration: int,
    meetLink: Option<string>,
    maxStudents: int,
    status: ClassStatus,
    bookingsCount: nat)

  /** The listing entry of a class. */
  function Summary(c: Class, bookings: seq<Booking>): (r: ClassSummary)
    ensures r.id == c.id && r.date == c.date && r.status == c.status && r.maxStudents == c.maxStudents
    ensures r.title == c.title && r.description == c.description && r.kind == c.kind
    ensures r.duration == c.duration && r.meetLink == c.meetLink
    ensures r.bookingsCount == |BookingsOfClass(bookings, c.id)|
  {
    ClassSummary(c.id, c.title, c.description, c.kind, c.date, c.duration, c.meetLink,
                 c.maxStudents, c.status, |BookingsOfClass(bookings, c.id)|)
  }

  function SummaryOf(bookings: seq<Booking>): Class -> ClassSummary {
    (c: Class) => Summary(c, bookings)
  }

  /** `orderBy: { date: 'desc' }`: a later class may come before an earlier one. */
  function LaterFirst(a: ClassSummary, b: ClassSummary): bool {
    a.date >= b.date
  }

  lemma LaterFirstTotal()
    ensures TotalPreorder(LaterFirst)
  {
  }

  /**
   * The GET listing: one summary per class, latest date first. Classes on the same
   * date may come in any order.
   */
  function Listing(classes: seq<Class>, bookings: seq<Booking>): (r: seq<ClassSummary>)
    ensures |r| == |classes|
    ensures multiset(r) == multiset(Map(classes, SummaryOf(bookings)))
    ensures SortedBy(r, LaterFirst)
    ensures forall i :: 0 <= i < |r| ==> r[i].bookingsCount == |BookingsOfClass(bookings, r[i].id)|
  {
    var summaries := Map(classes, SummaryOf(bookings));
    LaterFirstTotal();
    SortBySorted(summaries, LaterFirst);
    var r := SortBy(summaries, LaterFirst);
    assert forall i :: 0 <= i < |r| ==> r[i] in multiset(summaries);
    r
  }

  /** Every class appears in the listing, with its booking count. */
  lemma ListingHasEveryClass(classes: seq<Class>, bookings: seq<Booking>, k: nat)
    requires k < |classes|
    ensures Summary(classes[k], bookings) in Listing(classes, bookings)
  {
    var summaries := Map(classes, SummaryOf(bookings));
    assert summaries[k] == Summary(classes[k], bookings);
    assert summaries[k] in multiset(summaries);
    assert Summary(classes[k], bookings) in multiset(Listing(classes, bookings));
  }

  /** GET: 401 unless the session is an admin's, otherwise the listing. */
  function Get(db: Studio, session: Session): (r: Response<seq<ClassSummary>>)
    reads db
    ensures !IsAdmin(session) ==> r == Err(401, "Unauthorized")
    ensures IsAdmin(session) ==>
      && r.Ok? && r.status == 200 && SortedBy(r.body, LaterFirst)
      && multiset(r.body) == multiset(Map(db.classes, SummaryOf(db.bookings)))
  {
    if !IsAdmin(session) then Err(401, "Unauthorized")
    else Ok(200, Listing(db.classes, db.bookings))
  }

  /**
   * The POST body. `status` and `instructor` stand for whatever the client sends
   * under those names; the handler overrides both. A missing or falsy description or
   * meet link is the empty string; `date` is the instant `new Date(data.date)` gives.
   */
  datatype NewClass = NewClass(
    title: string,
    description: string,
    kind: ClassType,
    date: int,
    duration: int,
    meetLink: string,
    maxStudents: int,
    instructor: Option<string>,
    status: Option<ClassStatus>)

  const Instructor := "Samyuktha Nambiar"

  /** POST: create one scheduled class taught by the studio's instructor and answer 201 with it. */
  method Post(db: Studio, session: Session, body: NewClass) returns (r: Response<Class>)
    requires db.Valid()
    modifies db
    ensures db.Valid()
    ensures !IsAdmin(session) ==> r == Err(401, "Unauthorized") && unchanged(db)
    ensures IsAdmin(session) ==>
      && r.Ok? && r.status == 201
      && r.body == Class(old(db.nextId), body.title, OrNull(body.description), body.kind, Instructor,
                         body.date, body.duration, OrNull(body.meetLink), body.maxStudents, SCHEDULED)
      && db.classes == old(db.classes) + [r.body]
      && db.nextId == old(db.nextId) + 1
      && db.users == old(db.users) && db.registrations == old(db.registrations)
      && db.bookings == old(db.bookings) && db.payments == old(db.payments)
      && db.progress == old(db.progress) && db.memory == old(db.memory)
  {
    if !IsAdmin(session) {
      return Err(401, "Unauthorized");
    }
    var c := db.AddClass(body.title, OrNull(body.description), body.kind, Instructor,
                         body.date, body.duration, OrNull(body.meetLink), body.maxStudents, SCHEDULED);
    r := Ok(201, c);
  }

  /** A freshly created class is listed with no bookings. */
  lemma NewClassHasNoBookings(classes: seq<Class>, bookings: seq<Booking>, nextId: Id, c: Class)
    requires ClassesValid(classes, nextId) && BookingsValid(bookings, classes, nextId)
    requires c.id == nextId
    ensures Summary(c, bookings).bookingsCount == 0
  {
    forall i | 0 <= i < |bookings| ensures bookings[i].classId != nextId {
      var k :| 0 <= k < |classes| && classes[k].id == bookings[i].classId;
    }
    NoBookingsOfUnusedClass(bookings, nextId);
  }
}
