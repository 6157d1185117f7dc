/**
 * `POST /api/admin/creative/generate` (samyoga/app/api/admin/creative/generate/route.ts):
 * compose a poster prompt from the request, send it to the image model and return the
 * first inline image of the reply.
 */
module GenerateRoute {
  import opened Wrappers
  import opened Text
  import opened Sessions

  /** The request body; a missing or falsy field is the empty string. */
  datatype PosterBody = PosterBody(posterType: string, style: string, title: string, description: string)

  /** `inlineData` of a reply part: the base64 image and its MIME type. */
  datatype InlineData = InlineData(data: string, mimeType: string)

  /** One part of the first candidate's content. */
  datatype Part = Part(inlineData: Option<InlineData>)

  /**
   * The body of the upstream reply: the JSON value, reduced to `error?.message` (the empty
   * string when missing or falsy) and `candidates?.[0]?.content?.parts`, or the message
   * of the error that reading it as JSON throws.
   */
  datatype Json =
    | Parsed(errorMessage: string, parts: Option<seq<Part>>)
    | Unparsable(message: string)

  /** What `fetch` gives: an HTTP answer, or the message of the error it throws. */
  datatype Upstream =
    | Answered(ok: bool, status: int, statusText: string, json: Json)
    | Unreachable(message: string)

  /** The JSON answer of the route. */
  datatype PosterResult =
    | Poster(imageData: string, mimeType: string, prompt: string)
    | Failure(status: int, error: string, details: Option<string>)

  const CalmMinimal := "Calm & Minimal"
  const EnergeticName := "Energetic"
  const MeditativeName := "Meditative"
  const ClassAnnouncement := "Class Announcement"
  const EventPoster := "Event Poster"
  const WorkshopFlyer := "Workshop Flyer"
  const CalmPrompt := "Use a calm, minimal design with soft colors, plenty of white space, and gentle typography. Think serene and peaceful."
  const EnergeticPrompt := "Use vibrant, energetic colors with dynamic composition and bold typography. Think movement and vitality."
  const MeditativePrompt := "Use deep, grounding colors with contemplative imagery and elegant typography. Think stillness and introspection."
  const AnnouncementSentence := " Include space for class details like date, time, and instructor name. Make it inviting and welcoming."
  const EventSentence := " Create an eye-catching event poster with clear event information and compelling visuals."
  const WorkshopSentence := " Design a workshop flyer that highlights the learning outcomes and benefits."
  const Opening := "Create a professional yoga poster for \""
  const DefaultTitle := "Yoga Class"
  const DescriptionLabel := ". Description: "

  /** `title || 'Yoga Class'`, quoted, after the fixed opening. */
  function Head(title: string): string {
    Opening + (if title == "" then DefaultTitle else title) + "\""
  }

  const KnownStyles := {CalmMinimal, EnergeticName, MeditativeName}

  /**
   * The keys a plain JavaScript object literal inherits from `Object.prototype`:
   * `stylePrompts[style]` finds a truthy value under each of them too.
   */
  const InheritedKeys := {"constructor", "__proto__", "__defineGetter__", "__defineSetter__",
    "__lookupGetter__", "__lookupSetter__", "hasOwnProperty", "isPrototypeOf",
    "propertyIsEnumerable", "toString", "toLocaleString", "valueOf"}

  const ObjectSource := "function Object() { [native code] }"
  const ObjectText := "[object Object]"
  const NativeCode := "() { [native code] }"

  /**
   * What `${stylePrompts[style]}` renders for an inherited key: the source text of the
   * `Object` constructor, the prototype object itself, or the source text of a built-in method.
   */
  function InheritedText(style: string): (r: string)
    requires style in InheritedKeys
    ensures style == "constructor" ==> r == ObjectSource
    ensures style == "__proto__" ==> r == ObjectText
    ensures style != "constructor" && style != "__proto__" ==> r == "function " + style + NativeCode
  {
    if style == "constructor" then ObjectSource
    else if style == "__proto__" then ObjectText
    else "function " + style + NativeCode
  }

  /** `stylePrompts[style]`: the three known style names, and the keys every object inherits. */
  function StylePrompt(style: string): (r: Option<string>)
    ensures r.Some? <==> style in KnownStyles || style in InheritedKeys
    ensures style in InheritedKeys ==> r == Some(InheritedText(style))
  {
    if style == CalmMinimal then
      Some(CalmPrompt)
    else if style == EnergeticName then
      Some(EnergeticPrompt)
    else if style == MeditativeName then
      Some(MeditativePrompt)
    else if style in InheritedKeys then
      Some(InheritedText(style))
    else None
  }

  predicate KnownType(posterType: string) {
    posterType in {ClassAnnouncement, EventPoster, WorkshopFlyer}
  }

  /** The one sentence a poster type adds; the empty string for an unknown type. */
  function TypeSentence(posterType: string): (r: string)
    ensures r == "" <==> !KnownType(posterType)
  {
    if posterType == ClassAnnouncement then
      AnnouncementSentence
    else if posterType == EventPoster then
      EventSentence
    else if posterType == WorkshopFlyer then
      WorkshopSentence
    else ""
  }

  const Closing := " The poster should be suitable for digital sharing and print. Use high-quality imagery related to yoga practice, wellness, and mindfulness."

  function DescriptionPart(description: string): string {
    if description == "" then "" else DescriptionLabel + description
  }

  function StylePart(style: string): string {
    if style != "" && StylePrompt(style).Some? then ". " + StylePrompt(style).value else ""
  }

  /** The prompt: title, description, style, poster type and the closing, in that order. */
  function Prompt(b: PosterBody): (r: string)
  {
    Head(b.title) + DescriptionPart(b.description) + StylePart(b.style) + TypeSentence(b.posterType) + Closing
  }

  /** The prompt, accumulated with `+=` as the handler does. */
  method BuildPrompt(b: PosterBody) returns (prompt: string)
    ensures prompt == Prompt(b)
  {
    prompt := Head(b.title);
    if b.description != "" {
      prompt := prompt + (DescriptionLabel + b.description);
    } else {
      assert prompt + DescriptionPart(b.description) == prompt;
    }
    var stylePrompt := StylePrompt(b.style);
    if b.style != "" && stylePrompt.Some? {
      prompt := prompt + (". " + stylePrompt.value);
    } else {
      assert prompt + StylePart(b.style) == prompt;
    }
    if b.posterType == ClassAnnouncement {
      prompt := prompt + AnnouncementSentence;
    } else if b.posterType == EventPoster {
      prompt := prompt + EventSentence;
    } else if b.posterType == WorkshopFlyer {
      prompt := prompt + WorkshopSentence;
    } else {
      assert prompt + TypeSentence(b.posterType) == prompt;
    }
    prompt := prompt + Closing;
  }

  /** An empty title reads as "Yoga Class". */
  lemma EmptyTitleIsYogaClass(b: PosterBody)
    ensures Prompt(b.(title := "")) == Prompt(b.(title := DefaultTitle))
  {
  }

  /** A style name that is neither one of the three known ones nor an inherited key adds nothing. */
  lemma UnknownStyleIgnored(b: PosterBody)
    requires b.style !in KnownStyles && b.style !in InheritedKeys
    ensures Prompt(b) == Prompt(b.(style := ""))
  {
  }

  /** The style "constructor" adds the source text of JavaScript's `Object` to the prompt. */
  lemma ConstructorStyleAdded(b: PosterBody)
    requires b.style == "constructor"
    ensures Contains(Prompt(b), ". " + ObjectSource)
  {
    KnownStyleAdded(b);
  }

  /** A poster type other than the three known ones adds nothing. */
  lemma UnknownTypeIgnored(b: PosterBody)
    requires !KnownType(b.posterType)
    ensures Prompt(b) == Prompt(b.(posterType := ""))
  {
  }

  /** The prompt opens with the quoted title and ends with the fixed closing. */
  lemma PromptFrame(b: PosterBody)
    ensures StartsWith(Prompt(b), Head(b.title))
    ensures EndsWith(Prompt(b), Closing)
  {
    var h := Head(b.title);
    var x := h + DescriptionPart(b.description) + StylePart(b.style) + TypeSentence(b.posterType);
    assert StartsWith(h, h);
    StartsWithExtended(h, DescriptionPart(b.description), h);
    StartsWithExtended(h + DescriptionPart(b.description), StylePart(b.style), h);
    StartsWithExtended(h + DescriptionPart(b.description) + StylePart(b.style), TypeSentence(b.posterType), h);
    StartsWithExtended(x, Closing, h);
    assert (x + Closing)[|x|..] == Closing;
  }

  /** A known style adds its sentence to the prompt. */
  lemma KnownStyleAdded(b: PosterBody)
    requires StylePrompt(b.style).Some?
    ensures Contains(Prompt(b), ". " + StylePrompt(b.style).value)
  {
    var sentence := ". " + StylePrompt(b.style).value;
    var head := Head(b.title) + DescriptionPart(b.description);
    assert StylePart(b.style) == sentence;
    ContainsSuffix(head, sentence);
    ContainsExtended(head + sentence, TypeSentence(b.posterType), sentence);
    ContainsExtended(head + sentence + TypeSentence(b.posterType), Closing, sentence);
  }

  /**
   * A description inserts exactly `. Description: <description>` after the title and
   * changes nothing else; an empty one inserts nothing.
   */
  lemma DescriptionInserted(b: PosterBody)
    ensures var without := Prompt(b.(description := ""));
      var inserted := if b.description == "" then "" else DescriptionLabel + b.description;
      var n := |Head(b.title)|;
      && n + |inserted| <= |Prompt(b)| && n <= |without|
      && Prompt(b)[..n] == Head(b.title)
      && Prompt(b)[n..n + |inserted|] == inserted
      && Prompt(b)[n + |inserted|..] == without[n..]
  {
    Spliced(Head(b.title), DescriptionPart(b.description), StylePart(b.style), TypeSentence(b.posterType), Closing);
  }

  /** Removing the second of five concatenated pieces leaves the others in place. */
  lemma Spliced(h: string, d: string, s: string, t: string, c: string)
    ensures var p := h + d + s + t + c;
      var without := h + "" + s + t + c;
      && |h| + |d| <= |p| && |h| <= |without|
      && p[..|h|] == h
      && p[|h|..|h| + |d|] == d
      && p[|h| + |d|..] == without[|h|..]
  {
    var rest := s + t + c;
    AppendAssociates(h, d, s, t, c);
    AppendAssociates(h, "", s, t, c);
    assert (h + (d + rest))[|h| + |d|..] == rest;
    assert (h + ("" + rest))[|h|..] == rest;
  }

  /** `parts.find(part => part.inlineData)`: the inline data of the first part having one. */
  function FirstInline(parts: seq<Part>): (r: Option<InlineData>)
    ensures r.None? <==> forall i :: 0 <= i < |parts| ==> parts[i].inlineData.None?
    ensures r.Some? ==>
      exists i :: 0 <= i < |parts| && parts[i].inlineData == r && (forall j :: 0 <= j < i ==> parts[j].inlineData.None?)
  {
    if parts == [] then None
    else if parts[0].inlineData.Some? then
      assert parts[0].inlineData == parts[0].inlineData;
      parts[0].inlineData
    else
      var r := FirstInline(parts[1..]);
      if r.Some? then
        var i :| 0 <= i < |parts[1..]| && parts[1..][i].inlineData == r
          && (forall j :: 0 <= j < i ==> parts[1..][j].inlineData.None?);
        assert parts[i + 1].inlineData == r;
        assert forall j :: 0 <= j < i + 1 ==> parts[j].inlineData.None? by {
          forall j | 0 <= j < i + 1 ensures parts[j].inlineData.None? {
            if j > 0 { assert parts[j] == parts[1..][j - 1]; }
          }
        }
        r
      else
        assert forall i :: 0 <= i < |parts| ==> parts[i].inlineData.None? by {
          forall i | 0 <= i < |parts| ensures parts[i].inlineData.None? {
            if i > 0 { assert parts[i] == parts[1..][i - 1]; }
          }
        }
        r
  }

  /** `d` is the inline data of the first part that has one. */
  predicate IsFirstInline(parts: seq<Part>, d: InlineData) {
    exists i :: 0 <= i < |parts| && parts[i].inlineData == Some(d)
      && forall j :: 0 <= j < i ==> parts[j].inlineData.None?
  }

  const GenerateFailed := "Failed to generate image"
  const NoImageMessage := "No image data in response"

  /** What the handler answers for the upstream reply to `prompt`, before errors are caught. */
  function Reply(prompt: string, upstream: Upstream): (r: Option<PosterResult>)
    ensures upstream.Answered? && !upstream.ok ==>
      var details := if upstream.json.Parsed? && upstream.json.errorMessage != "" then upstream.json.errorMessage else upstream.statusText;
      r == Some(Failure(upstream.status, GenerateFailed, Some(details)))
    ensures upstream.Answered? && upstream.ok && upstream.json.Parsed? ==>
      var parts := upstream.json.parts.GetOr([]);
      && r.Some?
      && (r.value.Poster? <==> exists i :: 0 <= i < |parts| && parts[i].inlineData.Some?)
      && (r.value.Poster? ==> r.value.prompt == prompt && IsFirstInline(parts, InlineData(r.value.imageData, r.value.mimeType)))
      && (r.value.Failure? ==> r.value == Failure(500, NoImageMessage, None))
    ensures r.None? <==> upstream.Unreachable? || (upstream.ok && upstream.json.Unparsable?)
  {
    match upstream
    case Unreachable(_) => None
    case Answered(ok, status, statusText, json) =>
      if !ok then
        var details := if json.Parsed? && json.errorMessage != "" then json.errorMessage else statusText;
        Some(Failure(status, GenerateFailed, Some(details)))
      else
        match json
        case Unparsable(_) => None
        case Parsed(_, parts) =>
          var image := if parts.Some? then FirstInline(parts.value) else None;
          if image.None? then Some(Failure(500, NoImageMessage, None))
          else Some(Poster(image.value.data, image.value.mimeType, prompt))
  }

  /** The message of the error thrown while fetching or reading the reply. */
  function Thrown(upstream: Upstream): string {
    match upstream
    case Unreachable(m) => m
    case Answered(_, _, _, json) => if json.Unparsable? then json.message else ""
  }

  /** The `catch` of this route: an "API key" message is a 401, anything else a 500. */
  function CaughtError(message: string): (r: PosterResult)
    ensures r.Failure?
    ensures r.status == 401 <==> Contains(message, "API key")
  {
    if Contains(message, "API key") then
      Failure(401, "Invalid API key. Please check your GOOGLE_API_KEY environment variable.", None)
    else Failure(500, "Failed to generate poster", Some(message))
  }

  /**
   * The whole answer: the admin guard, the API-key guard, then the upstream call on the
   * prompt; `send(apiKey, prompt)` stands for the REST request.
   */
  function Answer(session: Session, b: PosterBody, apiKey: string, send: (string, string) -> Upstream): PosterResult {
    if !IsAdmin(session) then Failure(401, "Unauthorized", None)
    else if apiKey == "" then Failure(500, "Google API key not configured", None)
    else
      var upstream := send(apiKey, Prompt(b));
      var reply := Reply(Prompt(b), upstream);
      if reply.Some? then reply.value else CaughtError(Thrown(upstream))
  }

  method Post(session: Session, b: PosterBody, apiKey: string, send: (string, string) -> Upstream)
    returns (r: PosterResult)
    ensures r == Answer(session, b, apiKey, send)
    ensures !IsAdmin(session) ==> r == Failure(401, "Unauthorized", None)
    ensures IsAdmin(session) && apiKey == "" ==> r == Failure(500, "Google API key not configured", None)
    ensures IsAdmin(session) && apiKey != "" ==>
      var upstream := send(apiKey, Prompt(b));
      upstream.Answered? && upstream.ok && upstream.json.Parsed? ==>
        var parts := upstream.json.parts.GetOr([]);
        && (r.Poster? <==> exists i :: 0 <= i < |parts| && parts[i].inlineData.Some?)
        && (r.Poster? ==> r.prompt == Prompt(b) && IsFirstInline(parts, InlineData(r.imageData, r.mimeType)))
        && (!r.Poster? ==> r == Failure(500, NoImageMessage, None))
  {
    if !IsAdmin(session) {
      return Failure(401, "Unauthorized", None);
    }
    if apiKey == "" {
      return Failure(500, "Google API key not configured", None);
    }
    var prompt := BuildPrompt(b);
    var upstream := send(apiKey, prompt);
    var reply := Reply(prompt, upstream);
    if reply.Some? {
      r := reply.value;
    } else {
      r := CaughtError(Thrown(upstream));
    }
  }

  /** The two guards answer before any request: the answer does not depend on `send`. */
  lemma GuardsBeforeRequest(session: Session, b: PosterBody, apiKey: string, send1: (string, string) -> Upstream, send2: (string, string) -> Upstream)
    requires !IsAdmin(session) || apiKey == ""
    ensures Answer(session, b, apiKey, send1) == Answer(session, b, apiKey, send2)
    ensures !IsAdmin(session) ==> Answer(session, b, apiKey, send1) == Failure(401, "Unauthorized", None)
    ensures IsAdmin(session) ==> Answer(session, b, apiKey, send1) == Failure(500, "Google API key not configured", None)
  {
  }

  /**
   * An admin's request with a key whose upstream answer is OK and readable: the poster is
   * the first part with inline data, and without one the answer is a 500.
   */
  lemma FirstImageAnswered(session: Session, b: PosterBody, apiKey: string, send: (string, string) -> Upstream)
    requires IsAdmin(session) && apiKey != ""
    requires send(apiKey, Prompt(b)).Answered? && send(apiKey, Prompt(b)).ok
    requires send(apiKey, Prompt(b)).json.Parsed?
    ensures var parts := send(apiKey, Prompt(b)).json.parts.GetOr([]);
      var r := Answer(session, b, apiKey, send);
      && (r.Poster? <==> exists i :: 0 <= i < |parts| && parts[i].inlineData.Some?)
      && (r.Poster? ==> r.prompt == Prompt(b) && IsFirstInline(parts, InlineData(r.imageData, r.mimeType)))
      && (!r.Poster? ==> r == Failure(500, NoImageMessage, None))
  {
  }

  /** An admin's request with a key sends exactly the composed prompt, and an image answer carries it. */
  lemma PosterCarriesPrompt(session: Session, b: PosterBody, apiKey: string, send: (string, string) -> Upstream)
    requires IsAdmin(session) && apiKey != ""
    requires Answer(session, b, apiKey, send).Poster?
    ensures Answer(session, b, apiKey, send).prompt == Prompt(b)
    ensures send(apiKey, Prompt(b)).Answered? && send(apiKey, Prompt(b)).ok
  {
  }
}
