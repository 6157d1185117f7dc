/** `POST /api/register/questionnaire` (samyoga/app/api/register/questionnaire/route.ts). */
module QuestionnaireRoute {
  import opened Wrappers
  import opened Schema
  import opened Http
  import opened Sessions
  import opened Store

  /**
   * The request body: the six answer fields (a missing or falsy one is the empty
   * string) and a `userId` the client may send, which the handler never reads.
   */
  datatype QuestionnaireBody = QuestionnaireBody(
    experience: string,
    goals: string,
    injuries: string,
    preferences: string,
    availability: string,
    additionalInfo: string,
    userId: Option<Id>)

  /** `data.<field> || null` for each of the six answer fields. */
  function AnswersOf(b: QuestionnaireBody): (r: Answers)
    ensures r.experience == OrNull(b.experience) && r.goals == OrNull(b.goals)
    ensures r.injuries == OrNull(b.injuries) && r.preferences == OrNull(b.preferences)
    ensures r.availability == OrNull(b.availability) && r.additionalInfo == OrNull(b.additionalInfo)
  {
    Answers(OrNull(b.experience), OrNull(b.goals), OrNull(b.injuries),
            OrNull(b.preferences), OrNull(b.availability), OrNull(b.additionalInfo))
  }

  /** Submit the questionnaire: upsert the session user's registration row. */
  method Post(db: Studio, session: Session, body: QuestionnaireBody, now: int) returns (r: Response<string>)
    requires db.Valid()
    modifies db
    ensures db.Valid()
    ensures !HasUserId(session) ==> r == Err(401, "Unauthorized") && unchanged(db)
    ensures HasUserId(session) ==>
      && r == Ok(200, "Questionnaire submitted successfully")
      && db.registrations == Upsert(old(db.registrations), session.value.id.value, AnswersOf(body), now, old(db.nextId))
      && db.nextId == old(db.nextId) + 1
      && db.users == old(db.users) && db.classes == old(db.classes)
      && db.bookings == old(db.bookings) && db.payments == old(db.payments)
      && db.progress == old(db.progress) && db.memory == old(db.memory)
  {
    if !HasUserId(session) {
      return Err(401, "Unauthorized");
    }
    db.UpsertRegistration(session.value.id.value, AnswersOf(body), now);
    r := Ok(200, "Questionnaire submitted successfully");
  }

  /**
   * After the upsert the user has exactly one registration, holding the submitted
   * answers and the submission instant.
   */
  lemma {:induction false} UpsertLeavesOneRow(registrations: seq<Registration>, userId: Id, answers: Answers, now: int, freshId: Id)
    requires forall i, j :: 0 <= i < j < |registrations| ==> registrations[i].userId != registrations[j].userId
    ensures var after := Upsert(registrations, userId, answers, now, freshId);
      exists k :: 0 <= k < |after| && after[k].userId == userId
        && after[k].answers == answers && after[k].submittedAt == now
        && forall m :: 0 <= m < |after| && m != k ==> after[m].userId != userId
  {
    var after := Upsert(registrations, userId, answers, now, freshId);
    if HasRegistration(registrations, userId) {
      var k :| 0 <= k < |registrations| && registrations[k].userId == userId;
      assert after[k].userId == userId && after[k].answers == answers && after[k].submittedAt == now;
      forall m | 0 <= m < |after| && m != k ensures after[m].userId != userId {
        assert after[m].userId == registrations[m].userId;
      }
    } else {
      var k := |registrations|;
      assert after[k] == Registration(freshId, userId, answers, now, None, None);
      forall m | 0 <= m < |after| && m != k ensures after[m].userId != userId {
        assert after[m] == registrations[m];
      }
    }
  }

  /** Other users' rows keep their place and contents; at most one row is added, at the end. */
  lemma UpsertKeepsOthers(registrations: seq<Registration>, userId: Id, answers: Answers, now: int, freshId: Id)
    ensures var after := Upsert(registrations, userId, answers, now, freshId);
      && |registrations| <= |after| <= |registrations| + 1
      && forall i :: 0 <= i < |registrations| && registrations[i].userId != userId ==> after[i] == registrations[i]
  {
  }

  /** An existing row keeps its id and review fields; a created row has the fresh id and no review. */
  lemma UpsertRowIdentity(registrations: seq<Registration>, userId: Id, answers: Answers, now: int, freshId: Id)
    ensures var after := Upsert(registrations, userId, answers, now, freshId);
      && (forall i :: 0 <= i < |registrations| && registrations[i].userId == userId ==>
            after[i] == registrations[i].(answers := answers, submittedAt := now))
      && (!HasRegistration(registrations, userId) ==>
            after == registrations + [Registration(freshId, userId, answers, now, None, None)])
  {
  }
}
