/** The enums and table rows of the studio database (samyoga/types/database.ts). */
module Schema {
  import opened Wrappers

  /** Row identifiers. The store issues them from a counter; they are opaque otherwise. */
  type Id = nat

  datatype Role = STUDENT | ADMIN
  datatype UserStatus = PENDING | APPROVED | REJECTED
  datatype ClassType = HATHA | YIN | BOTH
  datatype ClassStatus = SCHEDULED | ONGOING | COMPLETED | CANCELLED
  datatype BookingStatus = CONFIRMED | ATTENDED | MISSED | CANCELLED
  datatype PaymentStatus = PENDING | PAID | FAILED | REFUNDED

  /** A `User` row; `password` holds the bcrypt hash. */
  datatype User = User(
    id: Id,
    name: Option<string>,
    email: string,
    image: Option<string>,
    password: Option<string>,
    role: Role,
    status: UserStatus)

  /** The six questionnaire answers of a `Registration` row. */
  datatype Answers = Answers(
    experience: Option<string>,
    goals: Option<string>,
    injuries: Option<string>,
    preferences: Option<string>,
    availability: Option<string>,
    additionalInfo: Option<string>)

  datatype Registration = Registration(
    id: Id,
    userId: Id,
    answers: Answers,
    submittedAt: int,
    reviewedAt: Option<int>,
    reviewedBy: Option<Id>)

  /** A `Class` row; `date` is an instant (milliseconds). */
  datatype Class = Class(
    id: Id,
    title: string,
    description: Option<string>,
    kind: ClassType,
    instructor: string,
    date: int,
    duration: int,
    meetLink: Option<string>,
    maxStudents: int,
    status: ClassStatus)

  datatype Booking = Booking(
    id: Id,
    userId: Id,
    classId: Id,
    status: BookingStatus,
    createdAt: int)

  /** A `Payment` row; `amount` is in minor units. */
  datatype Payment = Payment(
    id: Id,
    userId: Id,
    amount: int,
    currency: string,
    status: PaymentStatus)

  datatype Progress = Progress(
    id: Id,
    userId: Id,
    metric: string,
    value: int,
    notes: Option<string>,
    recordedAt: int)

  /**
   * Keys of the `AIMemory` table: `conversation_<user>_latest` and
   * `conversation_<user>_response_<stamp>`. The user part is absent when
   * the session carries no id (the template then prints `undefined`).
   */
  datatype MemoryKey =
    | LatestMessage(user: Option<Id>)
    | ReplyAt(user: Option<Id>, stamp: int)

  /** The JSON `context` column of an `AIMemory` row. */
  datatype MemoryContext = MemoryContext(timestamp: int, userMessage: Option<string>)

  datatype MemoryEntry = MemoryEntry(value: string, context: MemoryContext)

  /** `x || null` on a string field: the empty (falsy) string becomes null. */
  function OrNull(s: string): (r: Option<string>)
    ensures r.None? <==> s == ""
    ensures r.Some? ==> r.value == s
  {
    if s == "" then None else Some(s)
  }
}
