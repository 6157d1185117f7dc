/** `POST /api/admin/ai/chat` (samyoga/app/api/admin/ai/chat/route.ts). */
module ChatRoute {
  import opened Wrappers
  import opened Text
  import opened Schema
  import opened Seqs
  import opened Sessions
  import opened Store

  /** One entry of the model conversation: a role and its text parts. */
  datatype Content = Content(role: string, parts: seq<string>)

  /** The request body; a missing or falsy message is the empty string, a missing history is []. */
  datatype ChatBody = ChatBody(message: string, history: seq<Content>)

  /** What the model call gives: the reply text, or the message of the error it throws. */
  datatype ModelOutcome = Generated(text: string) | Threw(message: string)

  /** The JSON answer: a status and the `error` and `response` fields that are present. */
  datatype ChatResult = ChatResult(status: int, error: Option<string>, response: Option<string>)

  /** The four counts the handler reads before answering. */
  datatype StudioCounts = StudioCounts(students: nat, approvedStudents: nat, scheduledClasses: nat, pendingPayments: nat)

  function IsStudent(): User -> bool {
    (u: User) => u.role == STUDENT
  }

  function IsApprovedStudent(): User -> bool {
    (u: User) => u.role == STUDENT && u.status == APPROVED
  }

  function IsScheduled(): Class -> bool {
    (c: Class) => c.status == SCHEDULED
  }

  function IsPendingPayment(): Payment -> bool {
    (p: Payment) => p.status == PaymentStatus.PENDING
  }

  /** The `count` queries over the tables. */
  function CountsOf(users: seq<User>, classes: seq<Class>, payments: seq<Payment>): (r: StudioCounts)
    ensures r.approvedStudents <= r.students <= |users|
    ensures r.scheduledClasses <= |classes| && r.pendingPayments <= |payments|
  {
    ApprovedAreStudents(users);
    StudioCounts(
      |Filter(users, IsStudent())|,
      |Filter(users, IsApprovedStudent())|,
      |Filter(classes, IsScheduled())|,
      |Filter(payments, IsPendingPayment())|)
  }

  /** Approved students are students, so there are never more of them. */
  lemma {:induction false} ApprovedAreStudents(users: seq<User>)
    ensures |Filter(users, IsApprovedStudent())| <= |Filter(users, IsStudent())|
  {
    if users != [] {
      ApprovedAreStudents(users[1..]);
    }
  }

  /** The fixed text of the system context before the first count. */
  const StatusHeader := "You are an AI assistant for Samyoga, a yoga studio run by Samyuktha Nambiar. \nYou help with administrative tasks. Here's the current system status:\n- Total students: "

  /** The fixed text of the system context after the last count. */
  const CapabilitiesFooter := "\n\nYou can help with:\n- Student management and information\n- Class scheduling and details\n- Payment tracking\n- General questions about the yoga studio\n\nBe helpful, professional, and concise."

  /** The system context sent as the first user turn, with the four counts filled in. */
  function SystemContext(c: StudioCounts): string {
    StatusHeader + NatToString(c.students)
    + "\n- Approved students: " + NatToString(c.approvedStudents)
    + "\n- Scheduled classes: " + NatToString(c.scheduledClasses)
    + "\n- Pending payments: " + NatToString(c.pendingPayments)
    + CapabilitiesFooter
  }

  const Acknowledgement := "I understand. I'm ready to help with Samyoga administrative tasks."

  /** The contents sent to the model: system context, acknowledgement, client history, new message. */
  function Conversation(systemContext: string, history: seq<Content>, message: string): (r: seq<Content>)
    ensures |r| == |history| + 3
    ensures r[0] == Content("user", [systemContext])
    ensures r[1] == Content("model", [Acknowledgement])
    ensures r[2..|r| - 1] == history
    ensures r[|r| - 1] == Content("user", [message])
  {
    [Content("user", [systemContext]), Content("model", [Acknowledgement])] + history + [Content("user", [message])]
  }

  const Opening := "I'm your AI assistant. "
  const HelpNote := "I can help you with information about students, classes, and payments. What would you like to know? (Note: Gemini API key not configured - using fallback mode)"

  function StudentSentence(n: nat): string {
    "I found " + NatToString(n) + " students in the system. "
  }

  function ClassSentence(n: nat): string {
    "There are " + NatToString(n) + " scheduled classes. "
  }

  function PaymentSentence(n: nat): string {
    "There are " + NatToString(n) + " pending payments. "
  }

  /** The lower-cased message mentions a topic; the plural keyword adds nothing since it contains the singular. */
  predicate Mentions(lower: string, keyword: string) {
    Contains(lower, keyword)
  }

  /** The opening followed by the sentences of the mentioned topics, in the order students, classes, payments. */
  function Sentences(students: bool, classes: bool, payments: bool, c: StudioCounts): string {
    Opening
    + (if students then StudentSentence(c.students) else "")
    + (if classes then ClassSentence(c.scheduledClasses) else "")
    + (if payments then PaymentSentence(c.pendingPayments) else "")
  }

  /**
   * The fallback reply: the opening, then a sentence for each topic the lower-cased
   * message mentions, then the help note when it mentions none.
   */
  function Fallback(message: string, c: StudioCounts): string {
    var lower := Lower(message);
    var students := Mentions(lower, "student");
    var classes := Mentions(lower, "class");
    var payments := Mentions(lower, "payment");
    Sentences(students, classes, payments, c)
    + (if !students && !classes && !payments then HelpNote else "")
  }

  /** A keyword is found wherever a longer keyword that starts with it is. */
  lemma LongerKeyword(s: string, short: string, long: string)
    requires |short| <= |long| && long[..|short|] == short
    ensures Contains(s, long) ==> Contains(s, short)
  {
    if Contains(s, long) {
      ContainsPrefixOfNeedle(s, long, |short|);
    }
  }

  /** The opening holds neither "found" nor "There are". */
  lemma OpeningHasNoMarker()
    ensures !Contains(Opening, "found") && !Contains(Opening, "There are")
  {
    NotContainsForeignChar(Opening, "found", 0);
    NotContainsForeignChar(Opening, "There are", 0);
  }

  lemma StudentSentenceMarked(n: nat)
    ensures Contains(StudentSentence(n), "found")
  {
    var s := StudentSentence(n);
    assert s[2..7] == "found";
    assert OccursAt(s, "found", 2);
  }

  lemma ThereAreMarked(s: string)
    requires StartsWith(s, "There are")
    ensures Contains(s, "There are")
  {
    assert OccursAt(s, "There are", 0);
  }

  /**
   * What the handler tests for the help note, "found" or "There are" in the text so far,
   * holds exactly when some topic sentence was added.
   */
  lemma MarkerIffTopic(students: bool, classes: bool, payments: bool, c: StudioCounts)
    ensures Contains(Sentences(students, classes, payments, c), "found")
            || Contains(Sentences(students, classes, payments, c), "There are")
        <==> students || classes || payments
  {
    var a := Opening + (if students then StudentSentence(c.students) else "");
    var b := a + (if classes then ClassSentence(c.scheduledClasses) else "");
    var r := b + (if payments then PaymentSentence(c.pendingPayments) else "");
    assert r == Sentences(students, classes, payments, c);
    if students {
      StudentSentenceMarked(c.students);
      ContainsExtended(Opening, StudentSentence(c.students), "found");
      ContainsExtended(a, (if classes then ClassSentence(c.scheduledClasses) else ""), "found");
      ContainsExtended(b, (if payments then PaymentSentence(c.pendingPayments) else ""), "found");
    } else if classes {
      ThereAreMarked(ClassSentence(c.scheduledClasses));
      ContainsExtended(a, ClassSentence(c.scheduledClasses), "There are");
      ContainsExtended(b, (if payments then PaymentSentence(c.pendingPayments) else ""), "There are");
    } else if payments {
      ThereAreMarked(PaymentSentence(c.pendingPayments));
      ContainsExtended(b, PaymentSentence(c.pendingPayments), "There are");
    } else {
      assert r == Opening;
      OpeningHasNoMarker();
    }
  }

  /** The source's keyword tests, singular or plural, are the topic mentions. */
  lemma KeywordTests(lower: string)
    ensures (Contains(lower, "student") || Contains(lower, "students")) == Mentions(lower, "student")
    ensures (Contains(lower, "class") || Contains(lower, "classes")) == Mentions(lower, "class")
    ensures (Contains(lower, "payment") || Contains(lower, "payments")) == Mentions(lower, "payment")
  {
    LongerKeyword(lower, "student", "students");
    LongerKeyword(lower, "class", "classes");
    LongerKeyword(lower, "payment", "payments");
  }

  /** The fallback reply in terms of the three topic flags. */
  lemma FallbackByTopics(message: string, c: StudioCounts, students: bool, classes: bool, payments: bool)
    requires students == Mentions(Lower(message), "student")
    requires classes == Mentions(Lower(message), "class")
    requires payments == Mentions(Lower(message), "payment")
    ensures Fallback(message, c)
         == Sentences(students, classes, payments, c) + (if !students && !classes && !payments then HelpNote else "")
  {
  }

  lemma SentencesBuilt(students: bool, classes: bool, payments: bool, c: StudioCounts, a: string, b: string, r: string)
    requires a == Opening + (if students then StudentSentence(c.students) else "")
    requires b == a + (if classes then ClassSentence(c.scheduledClasses) else "")
    requires r == b + (if payments then PaymentSentence(c.pendingPayments) else "")
    ensures r == Sentences(students, classes, payments, c)
  {
  }

  /**
   * The fallback reply built as the handler builds it, by successive appends; the help
   * note is decided by looking for "found" and "There are" in what was built so far.
   */
  method FallbackReply(message: string, c: StudioCounts) returns (response: string)
    ensures response == Fallback(message, c)
  {
    response := Opening;
    var lower := Lower(message);
    var students := Contains(lower, "student") || Contains(lower, "students");
    var classes := Contains(lower, "class") || Contains(lower, "classes");
    var payments := Contains(lower, "payment") || Contains(lower, "payments");
    KeywordTests(lower);
    if students {
      response := response + StudentSentence(c.students);
    }
    ghost var afterStudents := response;
    if classes {
      response := response + ClassSentence(c.scheduledClasses);
    }
    ghost var afterClasses := response;
    if payments {
      response := response + PaymentSentence(c.pendingPayments);
    }
    SentencesBuilt(students, classes, payments, c, afterStudents, afterClasses, response);
    MarkerIffTopic(students, classes, payments, c);
    FallbackByTopics(message, c, students, classes, payments);
    if !Contains(response, "found") && !Contains(response, "There are") {
      response := response + HelpNote;
    }
  }

  /** The fallback reply always begins with the opening. */
  lemma FallbackStartsWithOpening(message: string, c: StudioCounts)
    ensures StartsWith(Fallback(message, c), Opening)
  {
  }

  /** The help note ends the fallback reply exactly when the message mentions no topic. */
  lemma HelpNoteIffNoTopic(message: string, c: StudioCounts)
    ensures EndsWith(Fallback(message, c), HelpNote)
      <==> !Mentions(Lower(message), "student") && !Mentions(Lower(message), "class") && !Mentions(Lower(message), "payment")
  {
    var r := Fallback(message, c);
    var lower := Lower(message);
    if Mentions(lower, "student") || Mentions(lower, "class") || Mentions(lower, "payment") {
      assert r[|r| - 1] == ' ';
      assert HelpNote[|HelpNote| - 1] == ')';
    }
  }

  const Apology := "I apologize, but I encountered an error. Please try again."

  const InvalidKey := "Invalid API key. Please check your GOOGLE_API_KEY environment variable."
  const ConfigurationApology := "I apologize, but there's an issue with the API configuration. Please contact the administrator."

  /** The catch block: an error whose message mentions "API key" is a 401, any other a 500. */
  function ErrorResult(message: string): (r: ChatResult)
    ensures r.status == 401 <==> Contains(message, "API key")
    ensures r.status == 500 <==> !Contains(message, "API key")
    ensures r.error.Some? && r.response.Some?
  {
    if Contains(message, "API key") then ChatResult(401, Some(InvalidKey), Some(ConfigurationApology))
    else
      ChatResult(500, Some("Failed to process message"), Some(Apology))
  }

  /** The memory entry of the latest message. */
  function LatestEntry(message: string, now: int): MemoryEntry {
    MemoryEntry(message, MemoryContext(now, None))
  }

  /** The memory entry of a reply. */
  function ReplyEntry(reply: string, message: string, now: int): MemoryEntry {
    MemoryEntry(reply, MemoryContext(now, Some(message)))
  }

  /** The contents sent to the model for a message, given the counts. */
  function ModelContents(c: StudioCounts, body: ChatBody): seq<Content> {
    Conversation(SystemContext(c), body.history, body.message)
  }

  /** The answer and the reply entry of a model outcome. */
  function ModelResult(outcome: ModelOutcome): ChatResult {
    match outcome
    case Generated(text) => ChatResult(200, None, Some(text))
    case Threw(m) => ErrorResult(m)
  }

  /**
   * Answer an admin's chat message. The latest message is stored before anything else
   * can fail. Without an API key the keyword fallback answers; with one, `generate`
   * stands for the model call on the contents sent. `now` is the clock and `stamp`
   * the `Date.now()` of the reply key.
   */
  method Post(db: Studio, session: Session, body: ChatBody, apiKey: string,
              generate: seq<Content> -> ModelOutcome, now: int, stamp: int) returns (r: ChatResult)
    requires db.Valid()
    modifies db
    ensures db.Valid()
    ensures !IsAdmin(session) ==> r == ChatResult(401, Some("Unauthorized"), None) && unchanged(db)
    ensures IsAdmin(session) && body.message == "" ==> r == ChatResult(400, Some("Message is required"), None) && unchanged(db)
    ensures IsAdmin(session) && body.message != "" ==>
      && db.users == old(db.users) && db.registrations == old(db.registrations)
      && db.classes == old(db.classes) && db.bookings == old(db.bookings)
      && db.payments == old(db.payments) && db.progress == old(db.progress)
      && db.nextId == old(db.nextId)
    ensures IsAdmin(session) && body.message != "" ==>
      var c := CountsOf(old(db.users), old(db.classes), old(db.payments));
      && r == AnswerOf(body, apiKey, generate, c)
      && db.memory == Stored(old(db.memory), session.value.id, body.message, now, stamp, ReplyOf(body, apiKey, generate, c))
  {
    if !IsAdmin(session) {
      return ChatResult(401, Some("Unauthorized"), None);
    }
    if body.message == "" {
      return ChatResult(400, Some("Message is required"), None);
    }
    r := Respond(db, session.value.id, body, apiKey, generate, now, stamp);
  }

  /** The reply an accepted message produces, if any: the fallback without a key, else the model's text. */
  function ReplyOf(body: ChatBody, apiKey: string, generate: seq<Content> -> ModelOutcome, c: StudioCounts): (r: Option<string>)
    ensures apiKey == "" ==> r == Some(Fallback(body.message, c))
    ensures apiKey != "" ==> (r.Some? <==> generate(ModelContents(c, body)).Generated?)
    ensures apiKey != "" && r.Some? ==> r.value == generate(ModelContents(c, body)).text
  {
    if apiKey == "" then Some(Fallback(body.message, c))
    else
      match generate(ModelContents(c, body))
      case Generated(text) => Some(text)
      case Threw(_) => None
  }

  /** The answer to an accepted message: 200 with the reply, or the caught model error. */
  function AnswerOf(body: ChatBody, apiKey: string, generate: seq<Content> -> ModelOutcome, c: StudioCounts): (r: ChatResult)
    ensures ReplyOf(body, apiKey, generate, c).Some? ==> r == ChatResult(200, None, ReplyOf(body, apiKey, generate, c))
    ensures ReplyOf(body, apiKey, generate, c).None? ==> r == ErrorResult(generate(ModelContents(c, body)).message)
  {
    if apiKey == "" then ChatResult(200, None, Some(Fallback(body.message, c)))
    else ModelResult(generate(ModelContents(c, body)))
  }

  /**
   * The memory after an accepted message: the latest message stored, the reply (when one
   * was produced) stored under its own key, and every other entry as it was.
   */
  function Stored(memory: map<MemoryKey, MemoryEntry>, user: Option<Id>, message: string, now: int, stamp: int,
                  reply: Option<string>): (r: map<MemoryKey, MemoryEntry>)
    ensures LatestMessage(user) in r && r[LatestMessage(user)] == LatestEntry(message, now)
    ensures reply.Some? ==> ReplyAt(user, stamp) in r && r[ReplyAt(user, stamp)] == ReplyEntry(reply.value, message, now)
    ensures forall k :: k in r <==> k in memory || k == LatestMessage(user) || (reply.Some? && k == ReplyAt(user, stamp))
    ensures forall k :: k in memory && k != LatestMessage(user) && (reply.None? || k != ReplyAt(user, stamp)) ==> r[k] == memory[k]
  {
    var latest := memory[LatestMessage(user) := LatestEntry(message, now)];
    if reply.Some? then latest[ReplyAt(user, stamp) := ReplyEntry(reply.value, message, now)] else latest
  }

  /** The writes of an accepted message: only the memory changes, as `Stored` describes. */
  method Respond(db: Studio, user: Option<Id>, body: ChatBody, apiKey: string,
                 generate: seq<Content> -> ModelOutcome, now: int, stamp: int) returns (r: ChatResult)
    requires db.Valid()
    modifies db
    ensures db.Valid()
    ensures db.users == old(db.users) && db.registrations == old(db.registrations)
      && db.classes == old(db.classes) && db.bookings == old(db.bookings)
      && db.payments == old(db.payments) && db.progress == old(db.progress)
      && db.nextId == old(db.nextId)
    ensures var c := CountsOf(old(db.users), old(db.classes), old(db.payments));
      && r == AnswerOf(body, apiKey, generate, c)
      && db.memory == Stored(old(db.memory), user, body.message, now, stamp, ReplyOf(body, apiKey, generate, c))
  {
    var counts := CountsOf(db.users, db.classes, db.payments);
    db.PutMemory(LatestMessage(user), LatestEntry(body.message, now));
    if apiKey == "" {
      var reply := FallbackReply(body.message, counts);
      db.PutMemory(ReplyAt(user, stamp), ReplyEntry(reply, body.message, now));
      return ChatResult(200, None, Some(reply));
    }
    var outcome := generate(ModelContents(counts, body));
    match outcome {
      case Generated(text) =>
        db.PutMemory(ReplyAt(user, stamp), ReplyEntry(text, body.message, now));
        r := ChatResult(200, None, Some(text));
      case Threw(m) =>
        r := ErrorResult(m);
    }
  }

  /** The contents sent put the system context first and the new message last, around the client history. */
  lemma ModelContentsShape(c: StudioCounts, body: ChatBody)
    ensures var sent := ModelContents(c, body);
      && |sent| == |body.history| + 3
      && sent[0] == Content("user", [SystemContext(c)])
      && sent[1] == Content("model", [Acknowledgement])
      && sent[2..|sent| - 1] == body.history
      && sent[|sent| - 1] == Content("user", [body.message])
  {
  }
}
