/**
 * `POST /api/admin/creative/generate-rest` (samyoga/app/api/admin/creative/generate-rest/route.ts):
 * the same guards, prompt and image extraction as `POST /api/admin/creative/generate`,
 * with a `catch` that answers 500 for every thrown error.
 */
module GenerateRestRoute {
  import opened Wrappers
  import opened Text
  import opened Sessions
  import opened GenerateRoute

  /** The `catch` of this route: every error is a 500 carrying its message. */
  function CaughtAny(message: string): (r: PosterResult)
    ensures r.Failure? && r.status == 500
    ensures r.details == Some(message)
  {
    Failure(500, "Failed to generate poster", Some(message))
  }

  /** The whole answer, as `GenerateRoute.Answer` but with this route's `catch`. */
  function RestAnswer(session: Session, b: PosterBody, apiKey: string, send: (string, string) -> Upstream): PosterResult {
    if !IsAdmin(session) then Failure(401, "Unauthorized", None)
    else if apiKey == "" then Failure(500, "Google API key not configured", None)
    else
      var upstream := send(apiKey, Prompt(b));
      var reply := Reply(Prompt(b), upstream);
      if reply.Some? then reply.value else CaughtAny(Thrown(upstream))
  }

  method Post(session: Session, b: PosterBody, apiKey: string, send: (string, string) -> Upstream)
    returns (r: PosterResult)
    ensures r == RestAnswer(session, b, apiKey, send)
    ensures !IsAdmin(session) ==> r == Failure(401, "Unauthorized", None)
    ensures IsAdmin(session) && apiKey == "" ==> r == Failure(500, "Google API key not configured", None)
    ensures IsAdmin(session) && apiKey != "" ==>
      var upstream := send(apiKey, Prompt(b));
      upstream.Answered? && upstream.ok && upstream.json.Parsed? ==>
        var parts := upstream.json.parts.GetOr([]);
        && (r.Poster? <==> exists i :: 0 <= i < |parts| && parts[i].inlineData.Some?)
        && (r.Poster? ==> r.prompt == Prompt(b) && IsFirstInline(parts, InlineData(r.imageData, r.mimeType)))
        && (!r.Poster? ==> r == Failure(500, NoImageMessage, None))
  {
    if !IsAdmin(session) {
      return Failure(401, "Unauthorized", None);
    }
    if apiKey == "" {
      return Failure(500, "Google API key not configured", None);
    }
    var prompt := BuildPrompt(b);
    var upstream := send(apiKey, prompt);
    var reply := Reply(prompt, upstream);
    if reply.Some? {
      r := reply.value;
    } else {
      r := CaughtAny(Thrown(upstream));
    }
  }

  /**
   * The two routes answer alike, except for a thrown error whose message mentions
   * "API key": the other route makes that a 401, this one a 500.
   */
  lemma RoutesAgreeButForKeyErrors(session: Session, b: PosterBody, apiKey: string, send: (string, string) -> Upstream)
    ensures var restAnswer := RestAnswer(session, b, apiKey, send);
      var answer := Answer(session, b, apiKey, send);
      var upstream := send(apiKey, Prompt(b));
      var keyError := IsAdmin(session) && apiKey != "" && Reply(Prompt(b), upstream).None?
        && Contains(Thrown(upstream), "API key");
      && (!keyError ==> restAnswer == answer)
      && (keyError ==> answer.status == 401 && restAnswer.status == 500)
  {
  }

  /** As `FirstImageAnswered`: the poster is the first part with inline data, and without one a 500. */
  lemma RestFirstImageAnswered(session: Session, b: PosterBody, apiKey: string, send: (string, string) -> Upstream)
    requires IsAdmin(session) && apiKey != ""
    requires send(apiKey, Prompt(b)).Answered? && send(apiKey, Prompt(b)).ok
    requires send(apiKey, Prompt(b)).json.Parsed?
    ensures var parts := send(apiKey, Prompt(b)).json.parts.GetOr([]);
      var r := RestAnswer(session, b, apiKey, send);
      && (r.Poster? <==> exists i :: 0 <= i < |parts| && parts[i].inlineData.Some?)
      && (r.Poster? ==> r.prompt == Prompt(b) && IsFirstInline(parts, InlineData(r.imageData, r.mimeType)))
      && (!r.Poster? ==> r == Failure(500, NoImageMessage, None))
  {
  }

  /** A thrown error never becomes a 401 here: a 401 comes only from the guard or from upstream. */
  lemma No401FromThrownErrors(session: Session, b: PosterBody, apiKey: string, send: (string, string) -> Upstream)
    requires RestAnswer(session, b, apiKey, send).Failure?
    requires RestAnswer(session, b, apiKey, send).status == 401
    ensures !IsAdmin(session) || (send(apiKey, Prompt(b)).Answered? && !send(apiKey, Prompt(b)).ok && send(apiKey, Prompt(b)).status == 401)
  {
  }
}
