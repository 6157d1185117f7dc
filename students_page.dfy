/** The admin's student list (samyoga/app/admin/students/page.tsx): the case-insensitive search. */
module StudentsPage {
  import opened Wrappers
  import opened Text
  import opened Schema
  import opened Seqs

  /** A row of the list the students API returns. */
  datatype Student = Student(
    id: Id,
    name: Option<string>,
    email: string,
    status: UserStatus,
    createdAt: int,
    bookingsCount: nat,
    paymentsCount: nat)

  /**
   * `student.name?.toLowerCase().includes(t) || student.email.toLowerCase().includes(t)`
   * with `t` the lower-cased term; a null name leaves only the email test.
   */
  predicate Matches(s: Student, term: string) {
    (s.name.Some? && Contains(Lower(s.name.value), Lower(term))) || Contains(Lower(s.email), Lower(term))
  }

  function MatchesTerm(term: string): Student -> bool {
    (s: Student) => Matches(s, term)
  }

  /** The students shown for `term`. */
  function Shown(students: seq<Student>, term: string): (r: seq<Student>)
    ensures forall s :: s in r <==> s in students && Matches(s, term)
  {
    FilterKeeps(students, MatchesTerm(term));
    Filter(students, MatchesTerm(term))
  }

  /** "No students found" is shown exactly when nothing matches. */
  function ShowsNoStudents(students: seq<Student>, term: string): (r: bool)
    ensures r <==> forall i :: 0 <= i < |students| ==> !Matches(students[i], term)
  {
    var shown := Shown(students, term);
    assert shown != [] ==> shown[0] in shown;
    |shown| == 0
  }

  /** The empty term shows every student, in order. */
  lemma EmptyTermShowsAll(students: seq<Student>)
    ensures Shown(students, "") == students
  {
    forall i | 0 <= i < |students| ensures MatchesTerm("")(students[i]) {
      ContainsEmpty(Lower(students[i].email));
    }
    FilterAll(students, MatchesTerm(""));
  }

  lemma {:induction false} LowerIdempotent(s: string)
    ensures Lower(Lower(s)) == Lower(s)
  {
  }

  /** The search ignores the letter case of the term. */
  lemma TermCaseIgnored(students: seq<Student>, term: string)
    ensures Shown(students, Lower(term)) == Shown(students, term)
  {
    LowerIdempotent(term);
    FilterCongruent(students, MatchesTerm(Lower(term)), MatchesTerm(term));
  }

  /** The list shown keeps the order of the students: filtering distributes over concatenation. */
  lemma ShownKeepsOrder(a: seq<Student>, b: seq<Student>, term: string)
    ensures Shown(a + b, term) == Shown(a, term) + Shown(b, term)
  {
    FilterAppend(a, b, MatchesTerm(term));
  }
}
