/**
 * The looping background video (samyoga/components/VideoSection.tsx): the YouTube id
 * taken from a URL, the embed URL built from it, and the mute toggle.
 */
module Video {
  import opened Wrappers
  import opened Text

  const WatchMarker := "youtube.com/watch?v="
  const ShortMarker := "youtu.be/"

  /** The characters the capture group `[^&\n?#]` admits. */
  predicate IdChar(c: char) {
    c != '&' && c != '\n' && c != '?' && c != '#'
  }

  /** The length of the marker that occurs at `i`, if one does; they cannot both occur there. */
  function MarkerAt(s: string, i: nat): (r: Option<nat>)
    ensures r.Some? <==> OccursAt(s, WatchMarker, i) || OccursAt(s, ShortMarker, i)
    ensures r.Some? ==> i + r.value <= |s|
  {
    if OccursAt(s, WatchMarker, i) then Some(|WatchMarker|)
    else if OccursAt(s, ShortMarker, i) then Some(|ShortMarker|)
    else None
  }

  /** The length of the longest run of id characters starting at `k`. */
  function RunLength(s: string, k: nat): (n: nat)
    requires k <= |s|
    ensures k + n <= |s|
    ensures forall j :: k <= j < k + n ==> IdChar(s[j])
    ensures k + n == |s| || !IdChar(s[k + n])
    decreases |s| - k
  {
    if k < |s| && IdChar(s[k]) then 1 + RunLength(s, k + 1) else 0
  }

  /** The regular expression matches at `i`: a marker followed by at least one id character. */
  predicate MatchesAt(s: string, i: nat) {
    MarkerAt(s, i).Some? && RunLength(s, i + MarkerAt(s, i).value) > 0
  }

  /** The leftmost position at or after `i` where the expression matches. */
  function FirstMatch(s: string, i: nat): (r: Option<nat>)
    requires i <= |s|
    ensures r.None? ==> forall j :: i <= j <= |s| ==> !MatchesAt(s, j)
    ensures r.Some? ==>
      i <= r.value <= |s| && MatchesAt(s, r.value) && (forall j :: i <= j < r.value ==> !MatchesAt(s, j))
    decreases |s| - i
  {
    if MatchesAt(s, i) then Some(i)
    else if i == |s| then None
    else FirstMatch(s, i + 1)
  }

  /** `getVideoId(url)`: the captured id of the leftmost match, or the URL itself. */
  function VideoId(url: string): (r: string)
    ensures FirstMatch(url, 0).None? ==> r == url
    ensures FirstMatch(url, 0).Some? ==>
      var i := FirstMatch(url, 0).value;
      var k := i + MarkerAt(url, i).value;
      r == url[k..k + RunLength(url, k)]
  {
    var m := FirstMatch(url, 0);
    if m.None? then url
    else
      var k := m.value + MarkerAt(url, m.value).value;
      url[k..k + RunLength(url, k)]
  }

  /** The run of id characters starting at `k`, cut out of `s`. */
  lemma RunIsClean(s: string, k: nat)
    requires k <= |s|
    ensures var id := s[k..k + RunLength(s, k)];
      forall j :: 0 <= j < |id| ==> IdChar(id[j])
  {
    var id := s[k..k + RunLength(s, k)];
    forall j | 0 <= j < |id| ensures IdChar(id[j]) {
      assert id[j] == s[k + j];
    }
  }

  /** An id taken from a match is non-empty and holds none of '&', '?', '#' or a newline. */
  lemma MatchedIdIsClean(url: string)
    requires FirstMatch(url, 0).Some?
    ensures |VideoId(url)| > 0
    ensures forall j :: 0 <= j < |VideoId(url)| ==> IdChar(VideoId(url)[j])
  {
    var i := FirstMatch(url, 0).value;
    var k := i + MarkerAt(url, i).value;
    RunIsClean(url, k);
  }

  /** A bare id, with no marker in it, is kept as it is. */
  lemma BareIdKept(url: string)
    requires forall i :: 0 <= i <= |url| ==> MarkerAt(url, i).None?
    ensures VideoId(url) == url
  {
  }

  const EmbedPrefix := "https://www.youtube.com/embed/"
  const MuteParameter := "?autoplay=1&mute="
  const PlaylistParameter := "&loop=1&playlist="
  const PlayerParameters := "&controls=0&modestbranding=1&rel=0&playsinline=1&iv_load_policy=3"

  /** `getEmbedUrl(muted)` for the id `embedId`. */
  function EmbedUrl(embedId: string, muted: bool): string {
    EmbedPrefix + embedId + MuteParameter + (if muted then "1" else "0") + PlaylistParameter + embedId + PlayerParameters
  }

  /** Where the mute flag sits in the embed URL. */
  function FlagIndex(embedId: string): nat {
    |EmbedPrefix| + |embedId| + |MuteParameter|
  }

  /**
   * The two embed URLs of one id differ only in the mute flag, which is '1' exactly
   * when muted.
   */
  lemma OnlyTheFlagDiffers(embedId: string)
    ensures var p := FlagIndex(embedId);
      && |EmbedUrl(embedId, true)| == |EmbedUrl(embedId, false)| > p
      && EmbedUrl(embedId, true)[p] == '1' && EmbedUrl(embedId, false)[p] == '0'
      && EmbedUrl(embedId, true)[..p] == EmbedUrl(embedId, false)[..p]
      && EmbedUrl(embedId, true)[p + 1..] == EmbedUrl(embedId, false)[p + 1..]
  {
    var head := EmbedPrefix + embedId + MuteParameter;
    var tail := PlaylistParameter + embedId + PlayerParameters;
    Regroup(head, "1", PlaylistParameter, embedId, PlayerParameters);
    Regroup(head, "0", PlaylistParameter, embedId, PlayerParameters);
  }

  /** The slices of `a + ([c] + (b + d + e))` around the character `c`. */
  lemma Regroup(a: string, c: string, b: string, d: string, e: string)
    requires |c| == 1
    ensures var r := a + c + b + d + e;
      && |r| > |a| && r[|a|] == c[0]
      && r[..|a|] == a && r[|a| + 1..] == b + d + e
  {
    AppendAssociates(a, c, b, d, e);
    assert a + (c + (b + d + e)) == (a + c) + (b + d + e);
  }

  /** The section's state: the id, the mute flag and the iframe's `src` while it is mounted. */
  class VideoPlayer {
    const embedId: string
    var isMuted: bool
    var iframeSrc: Option<string>

    /** The iframe, when mounted, shows the embed URL for the current mute state. */
    predicate Valid()
      reads this
    {
      iframeSrc.Some? ==> iframeSrc.value == EmbedUrl(embedId, isMuted)
    }

    /** The first render: muted, with the iframe on the muted embed URL. */
    constructor (videoId: string)
      ensures Valid()
      ensures embedId == VideoId(videoId) && isMuted
      ensures iframeSrc == Some(EmbedUrl(VideoId(videoId), true))
    {
      embedId := VideoId(videoId);
      isMuted := true;
      iframeSrc := Some(EmbedUrl(VideoId(videoId), true));
    }

    /** `toggleMute()`: flip the flag and point a mounted iframe at the new embed URL. */
    method ToggleMute()
      requires Valid()
      modifies this
      ensures Valid()
      ensures isMuted == !old(isMuted)
      ensures iframeSrc.Some? <==> old(iframeSrc).Some?
      ensures iframeSrc.Some? ==> iframeSrc.value == EmbedUrl(embedId, isMuted)
    {
      var newMutedState := !isMuted;
      isMuted := newMutedState;
      if iframeSrc.Some? {
        iframeSrc := Some(EmbedUrl(embedId, newMutedState));
      }
    }
  }
}
