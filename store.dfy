/**
 * The studio database as in-memory tables. Each table is a sequence of rows;
 * `AIMemory` is a map from its unique key. `nextId` is the id the store will
 * issue to the next inserted row. The handlers that write live in the module of
 * their route and change the tables through `modifies db`.
 */
module Store {
  import opened Wrappers
  import opened Schema
  import opened Seqs

  function OfClass(classId: Id): Booking -> bool {
    (b: Booking) => b.classId == classId
  }

  /** The bookings of class `classId`, whatever their status. */
  function BookingsOfClass(bookings: seq<Booking>, classId: Id): seq<Booking> {
    Filter(bookings, OfClass(classId))
  }

  /** Appending a booking adds it to its own class's bookings and to no other's. */
  lemma BookingsOfClassSnoc(bookings: seq<Booking>, b: Booking, classId: Id)
    ensures BookingsOfClass(bookings + [b], classId)
         == BookingsOfClass(bookings, classId) + (if b.classId == classId then [b] else [])
  {
    FilterSnoc(bookings, b, OfClass(classId));
  }

  /** How many bookings a class admits; a negative `maxStudents` admits none. */
  function Capacity(c: Class): nat {
    if c.maxStudents < 0 then 0 else c.maxStudents
  }

  /** `findUnique({ where: { id } })`: the row whose id is `id`, if there is one. */
  function FindById<T>(rows: seq<T>, idOf: T -> Id, id: Id): (r: Option<T>)
    ensures r.Some? ==> r.value in rows && idOf(r.value) == id
    ensures r.None? <==> forall i :: 0 <= i < |rows| ==> idOf(rows[i]) != id
  {
    if rows == [] then None
    else if idOf(rows[0]) == id then Some(rows[0])
    else FindById(rows[1..], idOf, id)
  }

  /** The lookup on the Class table. */
  function FindClass(classes: seq<Class>, id: Id): Option<Class> {
    FindById(classes, (c: Class) => c.id, id)
  }

  /** The lookup on the User table. */
  function FindUser(users: seq<User>, id: Id): Option<User> {
    FindById(users, (u: User) => u.id, id)
  }

  /** Some user row has exactly this email (`findUnique({ where: { email } })`). */
  predicate EmailTaken(users: seq<User>, email: string) {
    exists i | 0 <= i < |users| :: users[i].email == email
  }

  /** Some class row has this id. */
  predicate HasClass(classes: seq<Class>, id: Id) {
    exists i | 0 <= i < |classes| :: classes[i].id == id
  }

  /** `user.update({ where: { id }, data: { status } })`: the row with that id gets the status. */
  function WithStatus(users: seq<User>, id: Id, status: UserStatus): (r: seq<User>)
    ensures |r| == |users|
    ensures forall i :: 0 <= i < |users| ==>
      r[i] == if users[i].id == id then users[i].(status := status) else users[i]
  {
    seq(|users|, i requires 0 <= i < |users| =>
      if users[i].id == id then users[i].(status := status) else users[i])
  }

  /**
   * `registration.updateMany({ where: { userId }, data: { reviewedAt, reviewedBy } })`:
   * an absent reviewer id leaves `reviewedBy` as it was, as an `undefined` field does.
   */
  function WithReview(registrations: seq<Registration>, userId: Id, at: int, reviewer: Option<Id>): (r: seq<Registration>)
    ensures |r| == |registrations|
    ensures forall i :: 0 <= i < |registrations| ==>
      r[i] == if registrations[i].userId == userId
              then registrations[i].(reviewedAt := Some(at), reviewedBy := if reviewer.Some? then reviewer else registrations[i].reviewedBy)
              else registrations[i]
  {
    seq(|registrations|, i requires 0 <= i < |registrations| =>
      if registrations[i].userId == userId
      then registrations[i].(reviewedAt := Some(at), reviewedBy := if reviewer.Some? then reviewer else registrations[i].reviewedBy)
      else registrations[i])
  }

  /** Some registration row belongs to the user. */
  predicate HasRegistration(registrations: seq<Registration>, userId: Id) {
    exists i | 0 <= i < |registrations| :: registrations[i].userId == userId
  }

  /**
   * `registration.upsert({ where: { userId }, update, create })`: the user's row gets the
   * answers and a fresh `submittedAt`; without a row, one is created with id `freshId`,
   * `submittedAt` set by the store default to the same instant and no review.
   */
  function Upsert(registrations: seq<Registration>, userId: Id, answers: Answers, now: int, freshId: Id): seq<Registration> {
    if HasRegistration(registrations, userId) then
      seq(|registrations|, i requires 0 <= i < |registrations| =>
        if registrations[i].userId == userId
        then registrations[i].(answers := answers, submittedAt := now)
        else registrations[i])
    else
      registrations + [Registration(freshId, userId, answers, now, None, None)]
  }

  /** User ids are issued by the counter and unique; emails are unique. */
  ghost predicate UsersValid(users: seq<User>, nextId: Id) {
    && (forall i :: 0 <= i < |users| ==> users[i].id < nextId)
    && (forall i, j :: 0 <= i < j < |users| ==> users[i].id != users[j].id)
    && (forall i, j :: 0 <= i < j < |users| ==> users[i].email != users[j].email)
  }

  /** Registration ids are issued by the counter and unique; each user has at most one registration. */
  ghost predicate RegistrationsValid(registrations: seq<Registration>, nextId: Id) {
    && (forall i :: 0 <= i < |registrations| ==> registrations[i].id < nextId)
    && (forall i, j :: 0 <= i < j < |registrations| ==> registrations[i].id != registrations[j].id)
    && (forall i, j :: 0 <= i < j < |registrations| ==> registrations[i].userId != registrations[j].userId)
  }

  /** Class ids are issued by the counter and unique. */
  ghost predicate ClassesValid(classes: seq<Class>, nextId: Id) {
    && (forall i :: 0 <= i < |classes| ==> classes[i].id < nextId)
    && (forall i, j :: 0 <= i < j < |classes| ==> classes[i].id != classes[j].id)
  }

  /** Booking ids are issued by the counter and unique; every booking's class exists. */
  ghost predicate BookingsValid(bookings: seq<Booking>, classes: seq<Class>, nextId: Id) {
    && (forall i :: 0 <= i < |bookings| ==> bookings[i].id < nextId)
    && (forall i, j :: 0 <= i < j < |bookings| ==> bookings[i].id != bookings[j].id)
    && (forall i :: 0 <= i < |bookings| ==> HasClass(classes, bookings[i].classId))
  }

  /** No class holds more bookings than it admits. */
  ghost predicate WithinCapacity(bookings: seq<Booking>, classes: seq<Class>) {
    forall i :: 0 <= i < |classes| ==> |BookingsOfClass(bookings, classes[i].id)| <= Capacity(classes[i])
  }

  /** The unique constraints of the schema, the booking foreign key, the capacity rule and the id counter. */
  ghost predicate TablesValid(
    users: seq<User>, registrations: seq<Registration>, classes: seq<Class>,
    bookings: seq<Booking>, nextId: Id)
  {
    && UsersValid(users, nextId)
    && RegistrationsValid(registrations, nextId)
    && ClassesValid(classes, nextId)
    && BookingsValid(bookings, classes, nextId)
    && WithinCapacity(bookings, classes)
  }

  class Studio {
    var users: seq<User>
    var registrations: seq<Registration>
    var classes: seq<Class>
    var bookings: seq<Booking>
    var payments: seq<Payment>
    var progress: seq<Progress>
    var memory: map<MemoryKey, MemoryEntry>
    var nextId: Id

    ghost predicate Valid()
      reads this
    {
      TablesValid(users, registrations, classes, bookings, nextId)
    }

    /** An empty database. */
    constructor Empty()
      ensures Valid()
      ensures users == [] && registrations == [] && classes == [] && bookings == []
      ensures payments == [] && progress == [] && memory == map[] && nextId == 0
    {
      users, registrations, classes, bookings := [], [], [], [];
      payments, progress, memory, nextId := [], [], map[], 0;
    }

    /** A database holding existing rows that satisfy the schema's constraints. */
    constructor Load(
      users: seq<User>, registrations: seq<Registration>, classes: seq<Class>,
      bookings: seq<Booking>, payments: seq<Payment>, progress: seq<Progress>,
      memory: map<MemoryKey, MemoryEntry>, nextId: Id)
      requires TablesValid(users, registrations, classes, bookings, nextId)
      ensures Valid()
      ensures this.users == users && this.registrations == registrations
      ensures this.classes == classes && this.bookings == bookings
      ensures this.payments == payments && this.progress == progress
      ensures this.memory == memory && this.nextId == nextId
    {
      this.users, this.registrations, this.classes, this.bookings := users, registrations, classes, bookings;
      this.payments, this.progress, this.memory, this.nextId := payments, progress, memory, nextId;
    }

    /** `user.create`: append a user with the next id and an unused email. */
    method AddUser(name: Option<string>, email: string, password: Option<string>, role: Role, status: UserStatus)
      returns (id: Id)
      requires Valid()
      requires !EmailTaken(users, email)
      modifies this
      ensures Valid()
      ensures id == old(nextId)
      ensures users == old(users) + [User(id, name, email, None, password, role, status)]
      ensures nextId == old(nextId) + 1
      ensures registrations == old(registrations) && classes == old(classes) && bookings == old(bookings)
      ensures payments == old(payments) && progress == old(progress) && memory == old(memory)
    {
      id := nextId;
      CounterRaised(users, registrations, classes, bookings, nextId);
      UserAddedValid(users, nextId, User(id, name, email, None, password, role, status));
      users := users + [User(id, name, email, None, password, role, status)];
      nextId := nextId + 1;
    }

    /** `user.update` of the status of the user with that id. */
    method SetUserStatus(id: Id, status: UserStatus)
      requires Valid()
      modifies this
      ensures Valid()
      ensures users == WithStatus(old(users), id, status)
      ensures registrations == old(registrations) && classes == old(classes) && bookings == old(bookings)
      ensures payments == old(payments) && progress == old(progress) && memory == old(memory)
      ensures nextId == old(nextId)
    {
      StatusChangedValid(users, nextId, id, status);
      users := WithStatus(users, id, status);
    }

    /** `registration.updateMany` stamping the review of every registration of the user. */
    method StampReviews(userId: Id, at: int, reviewer: Option<Id>)
      requires Valid()
      modifies this
      ensures Valid()
      ensures registrations == WithReview(old(registrations), userId, at, reviewer)
      ensures users == old(users) && classes == old(classes) && bookings == old(bookings)
      ensures payments == old(payments) && progress == old(progress) && memory == old(memory)
      ensures nextId == old(nextId)
    {
      ReviewStampedValid(registrations, nextId, userId, at, reviewer);
      registrations := WithReview(registrations, userId, at, reviewer);
    }

    /** `registration.upsert` keyed on the user id; a created row takes the next id. */
    method UpsertRegistration(userId: Id, answers: Answers, now: int)
      requires Valid()
      modifies this
      ensures Valid()
      ensures registrations == Upsert(old(registrations), userId, answers, now, old(nextId))
      ensures nextId == old(nextId) + 1
      ensures users == old(users) && classes == old(classes) && bookings == old(bookings)
      ensures payments == old(payments) && progress == old(progress) && memory == old(memory)
    {
      CounterRaised(users, registrations, classes, bookings, nextId);
      UpsertValid(registrations, nextId, userId, answers, now);
      registrations := Upsert(registrations, userId, answers, now, nextId);
      nextId := nextId + 1;
    }

    /** `class.create`: append a class with the next id. */
    method AddClass(
      title: string, description: Option<string>, kind: ClassType, instructor: string,
      date: int, duration: int, meetLink: Option<string>, maxStudents: int, status: ClassStatus)
      returns (c: Class)
      requires Valid()
      modifies this
      ensures Valid()
      ensures c == Class(old(nextId), title, description, kind, instructor, date, duration, meetLink, maxStudents, status)
      ensures classes == old(classes) + [c]
      ensures nextId == old(nextId) + 1
      ensures users == old(users) && registrations == old(registrations) && bookings == old(bookings)
      ensures payments == old(payments) && progress == old(progress) && memory == old(memory)
    {
      c := Class(nextId, title, description, kind, instructor, date, duration, meetLink, maxStudents, status);
      CounterRaised(users, registrations, classes, bookings, nextId);
      ClassAddedValid(classes, bookings, nextId, c);
      ClassAddedWithinCapacity(classes, bookings, nextId, c);
      classes := classes + [c];
      nextId := nextId + 1;
    }

    /** `aIMemory.upsert` keyed on `key`: the entry under the key is replaced or created. */
    method PutMemory(key: MemoryKey, entry: MemoryEntry)
      requires Valid()
      modifies this
      ensures Valid()
      ensures memory == old(memory)[key := entry]
      ensures users == old(users) && registrations == old(registrations) && classes == old(classes)
      ensures bookings == old(bookings) && payments == old(payments) && progress == old(progress)
      ensures nextId == old(nextId)
    {
      memory := memory[key := entry];
    }

    /**
     * `booking.create`: append `Booking(nextId, userId, classId, status, createdAt)`
     * for an existing class that is not yet at capacity, and advance the counter.
     */
    method AddBooking(userId: Id, classId: Id, status: BookingStatus, createdAt: int, k: nat)
      requires Valid()
      requires k < |classes| && classes[k].id == classId
      requires |BookingsOfClass(bookings, classId)| < classes[k].maxStudents
      modifies this
      ensures Valid()
      ensures bookings == old(bookings) + [Booking(old(nextId), userId, classId, status, createdAt)]
      ensures nextId == old(nextId) + 1
      ensures users == old(users) && registrations == old(registrations) && classes == old(classes)
      ensures payments == old(payments) && progress == old(progress) && memory == old(memory)
    {
      var b := Booking(nextId, userId, classId, status, createdAt);
      BookingKeepsTablesValid(users, registrations, classes, bookings, nextId, b, k);
      bookings := bookings + [b];
      nextId := nextId + 1;
    }
  }

  /** A class found by id is the row with that id, so it is the one the capacity rule speaks of. */
  lemma FoundClassAt(classes: seq<Class>, id: Id, k: nat)
    requires forall i, j :: 0 <= i < j < |classes| ==> classes[i].id != classes[j].id
    requires k < |classes| && classes[k].id == id
    ensures FindClass(classes, id) == Some(classes[k])
  {
    var c := FindClass(classes, id).value;
    var m :| 0 <= m < |classes| && classes[m] == c;
    assert m == k;
  }

  /** A class id that no booking names has no bookings. */
  lemma {:induction false} NoBookingsOfUnusedClass(bookings: seq<Booking>, id: Id)
    requires forall i :: 0 <= i < |bookings| ==> bookings[i].classId != id
    ensures BookingsOfClass(bookings, id) == []
  {
    if bookings != [] {
      NoBookingsOfUnusedClass(bookings[1..], id);
    }
  }

  /**
   * Appending a booking with the next id, for an existing class that is not yet
   * at capacity, keeps every table constraint.
   */
  lemma BookingKeepsTablesValid(
    users: seq<User>, registrations: seq<Registration>, classes: seq<Class>,
    bookings: seq<Booking>, nextId: Id, b: Booking, k: nat)
    requires TablesValid(users, registrations, classes, bookings, nextId)
    requires b.id == nextId && k < |classes| && b.classId == classes[k].id
    requires |BookingsOfClass(bookings, b.classId)| < classes[k].maxStudents
    ensures TablesValid(users, registrations, classes, bookings + [b], nextId + 1)
  {
    BookingsGrow(bookings, classes, nextId, b, k);
    forall i | 0 <= i < |classes|
      ensures |BookingsOfClass(bookings + [b], classes[i].id)| <= Capacity(classes[i])
    {
      BookingsOfClassSnoc(bookings, b, classes[i].id);
      if classes[i].id == b.classId {
        assert i == k;
      }
    }
  }

  lemma BookingsGrow(bookings: seq<Booking>, classes: seq<Class>, nextId: Id, b: Booking, k: nat)
    requires BookingsValid(bookings, classes, nextId)
    requires b.id == nextId && k < |classes| && b.classId == classes[k].id
    ensures BookingsValid(bookings + [b], classes, nextId + 1)
  {
    var after := bookings + [b];
    forall i | 0 <= i < |after| ensures HasClass(classes, after[i].classId) {
      if i == |bookings| {
        assert classes[k].id == after[i].classId;
      } else {
        assert after[i] == bookings[i];
      }
    }
  }

  /** Raising the id counter keeps every constraint that mentions it. */
  lemma CounterRaised(
    users: seq<User>, registrations: seq<Registration>, classes: seq<Class>,
    bookings: seq<Booking>, nextId: Id)
    requires TablesValid(users, registrations, classes, bookings, nextId)
    ensures UsersValid(users, nextId + 1) && RegistrationsValid(registrations, nextId + 1)
    ensures ClassesValid(classes, nextId + 1) && BookingsValid(bookings, classes, nextId + 1)
  {
  }

  /** A new user with the next id and an unused email keeps the User constraints. */
  lemma UserAddedValid(users: seq<User>, nextId: Id, u: User)
    requires UsersValid(users, nextId)
    requires u.id == nextId && !EmailTaken(users, u.email)
    ensures UsersValid(users + [u], nextId + 1)
  {
    var after := users + [u];
    forall i, j | 0 <= i < j < |after| ensures after[i].email != after[j].email {
      if j == |users| {
        assert after[i] == users[i];
      }
    }
  }

  /** Changing a status keeps ids and emails, so it keeps the User constraints. */
  lemma StatusChangedValid(users: seq<User>, nextId: Id, id: Id, status: UserStatus)
    requires UsersValid(users, nextId)
    ensures UsersValid(WithStatus(users, id, status), nextId)
  {
    var after := WithStatus(users, id, status);
    assert forall i :: 0 <= i < |users| ==> after[i].id == users[i].id && after[i].email == users[i].email;
  }

  /** Stamping a review keeps ids and owners, so it keeps the Registration constraints. */
  lemma ReviewStampedValid(registrations: seq<Registration>, nextId: Id, userId: Id, at: int, reviewer: Option<Id>)
    requires RegistrationsValid(registrations, nextId)
    ensures RegistrationsValid(WithReview(registrations, userId, at, reviewer), nextId)
  {
    var after := WithReview(registrations, userId, at, reviewer);
    assert forall i :: 0 <= i < |registrations| ==>
      after[i].id == registrations[i].id && after[i].userId == registrations[i].userId;
  }

  /** The upsert keeps the Registration constraints when `freshId` is the next id. */
  lemma UpsertValid(registrations: seq<Registration>, nextId: Id, userId: Id, answers: Answers, now: int)
    requires RegistrationsValid(registrations, nextId)
    ensures RegistrationsValid(Upsert(registrations, userId, answers, now, nextId), nextId + 1)
  {
    var after := Upsert(registrations, userId, answers, now, nextId);
    if HasRegistration(registrations, userId) {
      assert forall i :: 0 <= i < |registrations| ==>
        after[i].id == registrations[i].id && after[i].userId == registrations[i].userId;
    } else {
      forall i, j | 0 <= i < j < |after| ensures after[i].userId != after[j].userId {
        if j == |registrations| {
          assert after[i] == registrations[i];
        }
      }
    }
  }

  /** A new class with the next id keeps the Class constraints and every booking's class. */
  lemma ClassAddedValid(classes: seq<Class>, bookings: seq<Booking>, nextId: Id, c: Class)
    requires ClassesValid(classes, nextId) && BookingsValid(bookings, classes, nextId)
    requires c.id == nextId
    ensures ClassesValid(classes + [c], nextId + 1) && BookingsValid(bookings, classes + [c], nextId + 1)
  {
    var after := classes + [c];
    forall i | 0 <= i < |bookings| ensures HasClass(after, bookings[i].classId) {
      var k :| 0 <= k < |classes| && classes[k].id == bookings[i].classId;
      assert after[k] == classes[k];
    }
  }

  /** A new class with the next id has no bookings, so every class stays within capacity. */
  lemma ClassAddedWithinCapacity(classes: seq<Class>, bookings: seq<Booking>, nextId: Id, c: Class)
    requires forall i :: 0 <= i < |classes| ==> classes[i].id < nextId
    requires forall i :: 0 <= i < |bookings| ==> HasClass(classes, bookings[i].classId)
    requires WithinCapacity(bookings, classes)
    requires c.id == nextId
    ensures WithinCapacity(bookings, classes + [c])
  {
    forall i | 0 <= i < |bookings| ensures bookings[i].classId != nextId {
      var k :| 0 <= k < |classes| && classes[k].id == bookings[i].classId;
    }
    NoBookingsOfUnusedClass(bookings, nextId);
    var after := classes + [c];
    forall i | 0 <= i < |after| ensures |BookingsOfClass(bookings, after[i].id)| <= Capacity(after[i]) {
      if i < |classes| {
        assert after[i] == classes[i];
      } else {
        assert after[i] == c;
      }
    }
  }

}
