/** The `analyseYoutubeVideo` server action: two guards and a redirect to the analysis page. */
module Analyse {
  import opened Common

  const Prefix := "/video/"
  const Suffix := "/analysis"

  /** The redirect target for a video id, with the id inserted unchanged and unencoded. */
  function AnalysisPath(id: string): (p: string)
    ensures |p| == |Prefix| + |id| + |Suffix|
    ensures p[..|Prefix|] == Prefix && p[|Prefix|..|Prefix| + |id|] == id && p[|Prefix| + |id|..] == Suffix
  {
    Prefix + id + Suffix
  }

  /** Reads the video id back out of an analysis path. */
  function IdOfPath(p: string): Option<string>
  {
    if |p| >= |Prefix| + |Suffix| && p[..|Prefix|] == Prefix && p[|p| - |Suffix|..] == Suffix
    then Some(p[|Prefix|..|p| - |Suffix|])
    else None
  }

  /** The id is recoverable from the path, so distinct ids redirect to distinct paths. */
  lemma PathRoundTrip(id: string)
    ensures IdOfPath(AnalysisPath(id)) == Some(id)
  {
    var p := AnalysisPath(id);
    assert p[|p| - |Suffix|..] == Suffix;
  }

  /** The action: `url` is the form's `url` field and `getVideoIdFromUrl` the id extractor,
      whose answer is `None` or a string. The result is the redirect target, or `None` when the
      action returns without redirecting. */
  function AnalyseYoutubeVideo(url: Option<string>, getVideoIdFromUrl: string -> Option<string>): (r: Option<string>)
    ensures url.None? || url.value == "" ==> r.None?
    ensures url.Some? && url.value != "" ==>
      (r.Some? <==> getVideoIdFromUrl(url.value).Some? && getVideoIdFromUrl(url.value).value != "")
    ensures r.Some? ==> IdOfPath(r.value) == getVideoIdFromUrl(url.value)
    ensures r.Some? ==> r.value == "/video/" + getVideoIdFromUrl(url.value).value + "/analysis"
  {
    if url.None? || url.value == "" then None
    else
      var videoId := getVideoIdFromUrl(url.value);
      if videoId.None? || videoId.value == "" then None
      else
        PathRoundTrip(videoId.value);
        Some(AnalysisPath(videoId.value))
  }
}
