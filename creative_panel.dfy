/**
 * The admin's creative page (samyoga/app/admin/creative/page.tsx): the poster form,
 * the list of generated posters and the download file name.
 */
module CreativePanel {
  import opened Wrappers
  import opened Text
  import opened GenerateRoute

  /** The form's initial (and reset) value. */
  const InitialForm := PosterBody(ClassAnnouncement, CalmMinimal, "", "")

  const TitleAlert := "Please enter a title for the poster"
  const RouteFailed := "Failed to generate poster"
  const NoImage := "No image data received"
  const RequestApology := "Failed to generate poster. Please check your API key configuration."
  const DownloadSuffix := "-poster.png"

  /** What the poster request gives the page: the route's answer, or an error thrown by `fetch` or `json()`. */
  datatype Reply = Delivered(result: PosterResult) | Thrown(message: string)

  /** A poster card; `createdAt` is the clock reading. */
  datatype GeneratedPoster = GeneratedPoster(
    id: string,
    title: string,
    description: string,
    posterType: string,
    style: string,
    imageUrl: string,
    createdAt: int,
    status: string)

  /** The poster is added only for a successful answer carrying image data. */
  predicate Succeeds(reply: Reply) {
    reply.Delivered? && reply.result.Poster? && reply.result.imageData != ""
  }

  /** `data:<mime>;base64,<data>`. */
  function ImageUrl(image: PosterResult): (r: string)
    requires image.Poster?
    ensures StartsWith(r, "data:") && EndsWith(r, image.imageData)
  {
    var url := "data:" + image.mimeType + ";base64," + image.imageData;
    assert url[..5] == "data:";
    assert url[|url| - |image.imageData|..] == image.imageData;
    url
  }

  /** The image URL splits back into the scheme, the MIME type, the marker and the data, in that order. */
  lemma ImageUrlPieces(image: PosterResult)
    requires image.Poster?
    ensures var r := ImageUrl(image);
      var m := |image.mimeType|;
      && |r| == 13 + m + |image.imageData|
      && r[..5] == "data:"
      && r[5..5 + m] == image.mimeType
      && r[5 + m..13 + m] == ";base64,"
      && r[13 + m..] == image.imageData
  {
    var r := ImageUrl(image);
    var m := |image.mimeType|;
    assert r == "data:" + image.mimeType + ";base64," + image.imageData;
    assert r[5..5 + m] == image.mimeType;
    assert r[5 + m..13 + m] == ";base64,";
    assert r[13 + m..] == image.imageData;
  }

  /** `formData.title || \`Poster ${posters.length + 1}\``. */
  function PosterTitle(title: string, count: nat): (r: string)
    ensures title != "" ==> r == title
    ensures title == "" ==> StartsWith(r, "Poster ") && r[7..] == NatToString(count + 1)
  {
    if title != "" then title else "Poster " + NatToString(count + 1)
  }

  function NewPoster(form: PosterBody, image: PosterResult, count: nat, now: nat): (r: GeneratedPoster)
    requires image.Poster?
    ensures r.title == PosterTitle(form.title, count) && r.imageUrl == ImageUrl(image)
    ensures r.description == form.description && r.posterType == form.posterType && r.style == form.style
    ensures r.status == "generated" && r.id == NatToString(now) && r.createdAt == now
  {
    GeneratedPoster(NatToString(now), PosterTitle(form.title, count), form.description, form.posterType,
                    form.style, ImageUrl(image), now, "generated")
  }

  /**
   * The alert of a failed generation: the route's error (or the default) for a non-ok
   * answer, "No image data received" for an ok answer without an image, and the thrown
   * message (or the apology) when the request itself failed.
   */
  function FailureAlert(reply: Reply): (r: string)
    requires !Succeeds(reply)
    ensures r != ""
    ensures reply.Delivered? && reply.result.Failure? ==>
      r == (if reply.result.error != "" then reply.result.error else RouteFailed)
    ensures reply.Delivered? && reply.result.Poster? ==> r == NoImage
    ensures reply.Thrown? ==> r == (if reply.message != "" then reply.message else RequestApology)
  {
    match reply
    case Delivered(result) =>
      if result.Failure? then (if result.error != "" then result.error else RouteFailed)
      else NoImage
    case Thrown(message) => if message != "" then message else RequestApology
  }

  /** `.replace(/\s+/g, '-')`: each run of white space becomes one dash. */
  function Dashed(s: string): (r: string)
    ensures |r| <= |s|
    ensures forall i :: 0 <= i < |r| ==> !IsSpace(r[i])
    decreases |s|
  {
    if s == [] then []
    else if IsSpace(s[0]) then
      var rest := TrimStart(s);
      assert rest == TrimStart(s[1..]);
      "-" + Dashed(rest)
    else [s[0]] + Dashed(s[1..])
  }

  /** A title without white space is kept as it is. */
  lemma {:induction false} DashedKeepsPlainTitles(s: string)
    requires forall i :: 0 <= i < |s| ==> !IsSpace(s[i])
    ensures Dashed(s) == s
  {
    if s != [] {
      DashedKeepsPlainTitles(s[1..]);
    }
  }

  /**
   * A white-space-free word, then a maximal run of blanks, then the rest: the word is
   * kept, the run becomes one dash and the rest is dashed in turn. With
   * `DashedKeepsPlainTitles` this fixes `Dashed` on a title with any number of runs.
   */
  lemma {:induction false} DashedRun(a: string, blanks: string, rest: string)
    requires forall i :: 0 <= i < |a| ==> !IsSpace(a[i])
    requires blanks != [] && IsBlank(blanks)
    requires rest == [] || !IsSpace(rest[0])
    ensures Dashed(a + (blanks + rest)) == a + ("-" + Dashed(rest))
    decreases |a|
  {
    var tail := blanks + rest;
    if a == [] {
      assert a + tail == tail;
      SkipsBlanks(blanks, rest);
      assert IsSpace(tail[0]);
    } else {
      var s := a + tail;
      assert s[0] == a[0] && s[1..] == a[1..] + tail;
      DashedRun(a[1..], blanks, rest);
      assert Dashed(s) == [a[0]] + Dashed(a[1..] + tail);
      assert a + ("-" + Dashed(rest)) == [a[0]] + (a[1..] + ("-" + Dashed(rest)));
    }
  }

  /** Joining two white-space-free words with any non-empty run of blanks gives `a-b`. */
  lemma DashedJoinsWords(a: string, blanks: string, b: string)
    requires forall i :: 0 <= i < |a| ==> !IsSpace(a[i])
    requires forall i :: 0 <= i < |b| ==> !IsSpace(b[i])
    requires blanks != [] && IsBlank(blanks)
    ensures Dashed(a + (blanks + b)) == a + ("-" + b)
  {
    DashedRun(a, blanks, b);
    DashedKeepsPlainTitles(b);
  }

  /** Skipping the leading white space of `blanks + b` leaves `b` when `b` starts with none. */
  lemma {:induction false} SkipsBlanks(blanks: string, b: string)
    requires IsBlank(blanks)
    requires b == [] || !IsSpace(b[0])
    ensures TrimStart(blanks + b) == b
  {
    if blanks != [] {
      assert (blanks + b)[1..] == blanks[1..] + b;
      SkipsBlanks(blanks[1..], b);
    }
  }

  /** `handleDownload(poster)`: nothing for a poster without an image, else the file name. */
  function DownloadName(poster: GeneratedPoster): (r: Option<string>)
    ensures r.None? <==> poster.imageUrl == ""
    ensures r.Some? ==> r.value == Dashed(poster.title) + DownloadSuffix
    ensures r.Some? ==> EndsWith(r.value, DownloadSuffix)
    ensures r.Some? ==> forall i :: 0 <= i < |r.value| - |DownloadSuffix| ==> !IsSpace(r.value[i])
  {
    if poster.imageUrl == "" then None
    else
      var name := Dashed(poster.title) + DownloadSuffix;
      assert name[|name| - |DownloadSuffix|..] == DownloadSuffix;
      Some(name)
  }

  class CreativePage {
    var isGenerating: bool
    var posters: seq<GeneratedPoster>
    var formData: PosterBody

    constructor ()
      ensures !isGenerating && posters == [] && formData == InitialForm
    {
      isGenerating := false;
      posters := [];
      formData := InitialForm;
    }

    /**
     * `handleGeneratePoster()`, with `generate` the request to the generate route and `now`
     * the clock: a blank title is refused before any request; a successful answer with an
     * image puts the new poster first and resets the form; anything else raises the
     * failure alert and keeps the posters and the form. Generation always ends.
     */
    method HandleGeneratePoster(generate: PosterBody -> Reply, now: nat) returns (alert: Option<string>)
      modifies this
      ensures IsBlank(old(formData.title)) ==> alert == Some(TitleAlert) && unchanged(this)
      ensures !IsBlank(old(formData.title)) ==> !isGenerating
      ensures !IsBlank(old(formData.title)) && Succeeds(generate(old(formData))) ==>
        && alert.None?
        && posters == [NewPoster(old(formData), generate(old(formData)).result, |old(posters)|, now)] + old(posters)
        && formData == InitialForm
      ensures !IsBlank(old(formData.title)) && !Succeeds(generate(old(formData))) ==>
        alert == Some(FailureAlert(generate(old(formData)))) && posters == old(posters) && formData == old(formData)
    {
      var form := formData;
      // `!formData.title.trim()`, which is a blank title by `TrimEmptyIffBlank`
      if IsBlank(form.title) {
        return Some(TitleAlert);
      }
      isGenerating := true;
      var reply := generate(form);
      var earlier := posters;
      if Succeeds(reply) {
        posters := [NewPoster(form, reply.result, |earlier|, now)] + earlier;
        formData := InitialForm;
        alert := None;
      } else {
        alert := Some(FailureAlert(reply));
      }
      isGenerating := false;
    }

    /**
     * The page as written: no control writes `formData`, so it only ever holds the
     * initial value, and every click is refused for the blank title.
     */
    method GenerateFromUntouchedForm(generate: PosterBody -> Reply, now: nat) returns (alert: Option<string>)
      requires formData == InitialForm
      modifies this
      ensures alert == Some(TitleAlert) && unchanged(this)
    {
      assert IsBlank(formData.title);
      alert := HandleGeneratePoster(generate, now);
    }

    /** The form controls bound to `formData`, as the form evidently intends. */
    method EditForm(form: PosterBody)
      modifies this
      ensures formData == form && posters == old(posters) && isGenerating == old(isGenerating)
    {
      formData := form;
    }

    /**
     * With the form bound, filling in a title and generating successfully adds one poster
     * carrying that title, and leaves the form reset for the next one.
     */
    method GenerateAfterEditing(form: PosterBody, generate: PosterBody -> Reply, now: nat) returns (alert: Option<string>)
      requires !IsBlank(form.title) && Succeeds(generate(form))
      modifies this
      ensures alert.None? && !isGenerating && formData == InitialForm
      ensures |posters| == |old(posters)| + 1 && posters[1..] == old(posters)
      ensures posters[0].title == form.title && posters[0].imageUrl == ImageUrl(generate(form).result)
    {
      EditForm(form);
      alert := HandleGeneratePoster(generate, now);
    }
  }
}
