/** `GET /api/dashboard/progress` (samyoga/app/api/dashboard/progress/route.ts). */
module ProgressRoute {
  import opened Wrappers
  import opened Schema
  import opened Seqs
  import opened Sorting
  import opened Http
  import opened Sessions
  import opened Store

  /** One entry of `goals`: a progress record reduced to metric, value and notes. */
  datatype Goal = Goal(metric: string, value: int, notes: Option<string>)

  /** The response body. Dates are instants; `lastPracticeDate` is null without an attended booking. */
  datatype ProgressSummary = ProgressSummary(
    classesAttended: nat,
    practiceDays: nat,
    lastPracticeDate: Option<int>,
    goals: seq<Goal>)

  /** Every booking's class is in the table: the `Booking.classId` foreign key. */
  predicate ClassesKnown(classes: seq<Class>, bookings: seq<Booking>) {
    forall i :: 0 <= i < |bookings| ==> HasClass(classes, bookings[i].classId)
  }

  /** The date of a booking's class (`b.class.date`). */
  function ClassDate(classes: seq<Class>, b: Booking): int
    requires HasClass(classes, b.classId)
  {
    FindClass(classes, b.classId).value.date
  }

  function MineOnly(userId: Id): Booking -> bool {
    (b: Booking) => b.userId == userId
  }

  function AttendedBy(userId: Id): Booking -> bool {
    (b: Booking) => b.userId == userId && b.status == ATTENDED
  }

  /**
   * The set of calendar days of the class dates of `bs`, where `dayOf` stands for
   * `date.toDateString()`.
   */
  function Days(classes: seq<Class>, bs: seq<Booking>, dayOf: int -> int): (r: set<int>)
    requires ClassesKnown(classes, bs)
    ensures forall d :: d in r <==> exists i :: 0 <= i < |bs| && d == dayOf(ClassDate(classes, bs[i]))
  {
    if bs == [] then {}
    else
      var rest := Days(classes, bs[1..], dayOf);
      assert forall i :: 1 <= i < |bs| ==> bs[i] == bs[1..][i - 1];
      assert forall i :: 0 <= i < |bs| - 1 ==> bs[1..][i] == bs[i + 1];
      {dayOf(ClassDate(classes, bs[0]))} + rest
  }

  /** There are never more practice days than bookings. */
  lemma {:induction false} DaysAtMostBookings(classes: seq<Class>, bs: seq<Booking>, dayOf: int -> int)
    requires ClassesKnown(classes, bs)
    ensures |Days(classes, bs, dayOf)| <= |bs|
  {
    if bs != [] {
      DaysAtMostBookings(classes, bs[1..], dayOf);
    }
  }

  /**
   * `findFirst({ orderBy: { createdAt: 'desc' } })`: a booking created no earlier than
   * any other; among equal `createdAt` the first in table order.
   */
  function Latest(bs: seq<Booking>): (r: Option<Booking>)
    ensures r.None? <==> bs == []
    ensures r.Some? ==> r.value in bs && forall i :: 0 <= i < |bs| ==> bs[i].createdAt <= r.value.createdAt
  {
    if bs == [] then None
    else
      var rest := Latest(bs[1..]);
      assert forall i :: 1 <= i < |bs| ==> bs[i] == bs[1..][i - 1];
      if rest.Some? && rest.value.createdAt > bs[0].createdAt then rest else Some(bs[0])
  }

  /** `orderBy: { recordedAt: 'desc' }` on Progress. */
  function RecordedLaterFirst(a: Progress, b: Progress): bool {
    a.recordedAt >= b.recordedAt
  }

  lemma RecordedLaterFirstTotal()
    ensures TotalPreorder(RecordedLaterFirst)
  {
  }

  function RecordOf(userId: Id): Progress -> bool {
    (p: Progress) => p.userId == userId
  }

  /** The user's records, most recently recorded first. */
  function RecordsLatestFirst(progress: seq<Progress>, userId: Id): (r: seq<Progress>)
    ensures multiset(r) == multiset(Filter(progress, RecordOf(userId)))
    ensures SortedBy(r, RecordedLaterFirst)
  {
    RecordedLaterFirstTotal();
    SortBySorted(Filter(progress, RecordOf(userId)), RecordedLaterFirst);
    SortBy(Filter(progress, RecordOf(userId)), RecordedLaterFirst)
  }

  /** `take: 10` of the user's records, most recently recorded first. */
  function TopRecords(progress: seq<Progress>, userId: Id): (r: seq<Progress>)
    ensures |r| == if |Filter(progress, RecordOf(userId))| < 10 then |Filter(progress, RecordOf(userId))| else 10
    ensures SortedBy(r, RecordedLaterFirst)
    ensures multiset(r) <= multiset(Filter(progress, RecordOf(userId)))
  {
    var sorted := RecordsLatestFirst(progress, userId);
    var r := FirstN(sorted, 10);
    SortedPrefix(sorted, |r|, RecordedLaterFirst);
    r
  }

  /** Every record kept belongs to the user. */
  lemma TopRecordsAreTheUsers(progress: seq<Progress>, userId: Id)
    ensures forall i :: 0 <= i < |TopRecords(progress, userId)| ==> TopRecords(progress, userId)[i].userId == userId
  {
    var r := TopRecords(progress, userId);
    var mine := Filter(progress, RecordOf(userId));
    forall i | 0 <= i < |r| ensures r[i].userId == userId {
      assert r[i] in multiset(r);
      assert r[i] in multiset(mine);
      var k :| 0 <= k < |mine| && mine[k] == r[i];
    }
  }

  /** A record of the user left out of the top ten was recorded no later than every record kept. */
  lemma TopRecordsAreLatest(progress: seq<Progress>, userId: Id, p: Progress)
    requires p in multiset(Filter(progress, RecordOf(userId))) - multiset(TopRecords(progress, userId))
    ensures forall i :: 0 <= i < |TopRecords(progress, userId)| ==>
      p.recordedAt <= TopRecords(progress, userId)[i].recordedAt
  {
    var sorted := RecordsLatestFirst(progress, userId);
    var r := TopRecords(progress, userId);
    SortedPrefix(sorted, |r|, RecordedLaterFirst);
    DroppedByPrefix(sorted, |r|, p);
  }

  function GoalOf(p: Progress): Goal {
    Goal(p.metric, p.value, p.notes)
  }

  /** The progress summary of the user, reading the tables; `dayOf` is the calendar-day function. */
  function Summary(classes: seq<Class>, bookings: seq<Booking>, progress: seq<Progress>, userId: Id, dayOf: int -> int): (r: ProgressSummary)
    requires ClassesKnown(classes, bookings)
    ensures r.classesAttended == |Filter(bookings, AttendedBy(userId))|
    ensures r.practiceDays == |Days(classes, Filter(bookings, MineOnly(userId)), dayOf)|
    ensures r.lastPracticeDate.None? <==> r.classesAttended == 0
    ensures r.lastPracticeDate.Some? ==>
      exists b :: b in Filter(bookings, AttendedBy(userId)) && HasClass(classes, b.classId)
        && r.lastPracticeDate.value == ClassDate(classes, b)
        && forall b' :: b' in Filter(bookings, AttendedBy(userId)) ==> b'.createdAt <= b.createdAt
    ensures |r.goals| <= 10
    ensures r.goals == Map(TopRecords(progress, userId), GoalOf)
  {
    var attended := Filter(bookings, AttendedBy(userId));
    var mine := Filter(bookings, MineOnly(userId));
    assert ClassesKnown(classes, mine);
    assert ClassesKnown(classes, attended);
    var last := Latest(attended);
    ProgressSummary(
      |attended|,
      |Days(classes, mine, dayOf)|,
      if last.Some? then Some(ClassDate(classes, last.value)) else None,
      Map(TopRecords(progress, userId), GoalOf))
  }

  /** 401 unless the session has an id and is approved; otherwise the user's progress. */
  function Get(db: Studio, session: Session, dayOf: int -> int): (r: Response<ProgressSummary>)
    reads db
    requires db.Valid()
    ensures !IsApprovedUser(session) ==> r == Err(401, "Unauthorized")
    ensures IsApprovedUser(session) ==>
      r == Ok(200, Summary(db.classes, db.bookings, db.progress, session.value.id.value, dayOf))
    ensures IsApprovedUser(session) ==>
      && r.Ok? && r.status == 200
      && r.body.practiceDays <= |Filter(db.bookings, MineOnly(session.value.id.value))|
      && (r.body.lastPracticeDate.None? <==> r.body.classesAttended == 0)
  {
    if !IsApprovedUser(session) then Err(401, "Unauthorized")
    else
      var userId := session.value.id.value;
      var s := Summary(db.classes, db.bookings, db.progress, userId, dayOf);
      DaysAtMostBookings(db.classes, Filter(db.bookings, MineOnly(userId)), dayOf);
      Ok(200, s)
  }
}
