/**
 * The student's classes page (samyoga/app/dashboard/classes/page.tsx): the upcoming and
 * past lists over the classes the API returns, and the booked-or-book choice.
 */
module ClassesPage {
  import opened Wrappers
  import opened Schema
  import opened Seqs
  import opened ClassesRoute

  /** `new Date(c.date) >= new Date() && c.status === 'SCHEDULED'`, with one `now`. */
  function IsUpcoming(now: int): StudentClass -> bool {
    (c: StudentClass) => c.date >= now && c.status == SCHEDULED
  }

  /** `new Date(c.date) < new Date() || c.status === 'COMPLETED'`. */
  function IsPast(now: int): StudentClass -> bool {
    (c: StudentClass) => c.date < now || c.status == COMPLETED
  }

  function Upcoming(classes: seq<StudentClass>, now: int): (r: seq<StudentClass>)
    ensures forall c :: c in r <==> c in classes && c.date >= now && c.status == SCHEDULED
  {
    FilterKeeps(classes, IsUpcoming(now));
    Filter(classes, IsUpcoming(now))
  }

  function Past(classes: seq<StudentClass>, now: int): (r: seq<StudentClass>)
    ensures forall c :: c in r <==> c in classes && (c.date < now || c.status == COMPLETED)
  {
    FilterKeeps(classes, IsPast(now));
    Filter(classes, IsPast(now))
  }

  /** No class is both upcoming and past. */
  lemma UpcomingAndPastDisjoint(classes: seq<StudentClass>, now: int)
    ensures forall c :: !(c in Upcoming(classes, now) && c in Past(classes, now))
  {
  }

  /** A class from now on that is neither SCHEDULED nor COMPLETED shows in neither list. */
  lemma NeitherList(classes: seq<StudentClass>, now: int, c: StudentClass)
    requires c.date >= now && c.status != SCHEDULED && c.status != COMPLETED
    ensures c !in Upcoming(classes, now) && c !in Past(classes, now)
  {
  }

  /** Both lists keep the order of the API's list: filtering distributes over concatenation. */
  lemma ListsKeepOrder(a: seq<StudentClass>, b: seq<StudentClass>, now: int)
    ensures Upcoming(a + b, now) == Upcoming(a, now) + Upcoming(b, now)
    ensures Past(a + b, now) == Past(a, now) + Past(b, now)
  {
    FilterAppend(a, b, IsUpcoming(now));
    FilterAppend(a, b, IsPast(now));
  }

  /** What an upcoming class card offers. */
  datatype CardAction = Booked(joinLink: Option<string>) | BookButton

  /** "Booked" (with a join link when there is one) iff the booking is CONFIRMED; otherwise the button. */
  function Card(c: StudentClass): (r: CardAction)
    ensures r.Booked? <==> c.bookingStatus == Some(CONFIRMED)
    ensures r.Booked? ==> r.joinLink == (if c.meetLink == Some("") then None else c.meetLink)
  {
    if c.bookingStatus == Some(CONFIRMED) then
      Booked(if c.meetLink.Some? && c.meetLink.value != "" then c.meetLink else None)
    else BookButton
  }

  /** What the page does after "Book This Class": fetch the list again, or alert. */
  datatype AfterBooking = Refetch | Alert(message: string)

  /** `handleBookClass`: a 2xx answer refetches; anything else, or a network error (`None`), alerts. */
  function BookingFollowUp(answerOk: Option<bool>): (r: AfterBooking)
    ensures r == Refetch <==> answerOk == Some(true)
    ensures r.Alert? ==> r.message == "Failed to book class. Please try again."
  {
    if answerOk == Some(true) then Refetch else Alert("Failed to book class. Please try again.")
  }
}
