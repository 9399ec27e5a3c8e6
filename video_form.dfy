/** The video-URL form: the `handleSubmit` validation chain and the choice between the form
    and the upgrade notice. */
module VideoForm {
  import opened Common

  /** `haystack.includes(needle)`: case-sensitive substring search. */
  function Includes(haystack: string, needle: string): bool
    decreases |haystack|
  {
    if |needle| > |haystack| then false
    else haystack[..|needle|] == needle || Includes(haystack[1..], needle)
  }

  /** `needle` occurs in `haystack` starting at position `i`. */
  predicate OccursAt(haystack: string, needle: string, i: int)
  {
    0 <= i <= |haystack| - |needle| && haystack[i..i + |needle|] == needle
  }

  /** `Includes` holds exactly when the needle occurs at some position of the haystack. */
  lemma {:induction false} IncludesIff(haystack: string, needle: string)
    ensures Includes(haystack, needle) <==> exists i :: OccursAt(haystack, needle, i)
    decreases |haystack|
  {
    if |needle| > |haystack| {
      assert forall i :: !OccursAt(haystack, needle, i);
    } else if haystack[..|needle|] == needle {
      assert OccursAt(haystack, needle, 0);
    } else {
      var rest := haystack[1..];
      IncludesIff(rest, needle);
      if exists i :: OccursAt(haystack, needle, i) {
        var i :| OccursAt(haystack, needle, i);
        assert OccursAt(rest, needle, i - 1);
      }
      if Includes(rest, needle) {
        var i :| OccursAt(rest, needle, i);
        assert OccursAt(haystack, needle, i + 1);
      }
    }
  }

  /** The shape check: the url mentions "youtube.com" or "youtu.be" anywhere. */
  predicate LooksLikeYoutube(url: string)
  {
    Includes(url, "youtube.com") || Includes(url, "youtu.be")
  }

  /** What the server action `analyseYoutubeVideo` does when invoked: finish, throw an `Error`
      with a message, or throw some other value. */
  datatype AnalyseReply = Finished | ThrewError(message: string) | ThrewOther

  /** What one submit does: whether the server action is invoked, and the error toast shown. */
  datatype SubmitEffect = SubmitEffect(invoked: bool, toast: Option<string>)

  const SignInMessage := "Please sign in to analyze videos"
  const EmptyUrlMessage := "Please enter a YouTube URL"
  const InvalidUrlMessage := "Please enter a valid YouTube URL"
  const AnalyseFailedMessage := "Failed to analyze video. Please try again."

  /** `handleSubmit`: sign-in, then presence, then shape; the first failing check gives its
      message, and the action is invoked exactly when all three pass. `url` is the form's
      `url` field, `analyse` what the action does if invoked. */
  function HandleSubmit(isSignedIn: bool, url: Option<string>, analyse: AnalyseReply): (e: SubmitEffect)
    ensures e.invoked <==> isSignedIn && url.Some? && url.value != "" && LooksLikeYoutube(url.value)
    ensures !isSignedIn ==> e.toast == Some(SignInMessage)
    ensures isSignedIn && (url.None? || url.value == "") ==> e.toast == Some(EmptyUrlMessage)
    ensures isSignedIn && url.Some? && url.value != "" && !LooksLikeYoutube(url.value) ==>
      e.toast == Some(InvalidUrlMessage)
    ensures e.invoked ==>
      e.toast == match analyse
        case Finished => None
        case ThrewError(m) => Some(m)
        case ThrewOther => Some(AnalyseFailedMessage)
  {
    if !isSignedIn then SubmitEffect(false, Some(SignInMessage))
    else if url.None? || url.value == "" then SubmitEffect(false, Some(EmptyUrlMessage))
    else if !Includes(url.value, "youtube.com") && !Includes(url.value, "youtu.be") then
      SubmitEffect(false, Some(InvalidUrlMessage))
    else match analyse
      case Finished => SubmitEffect(true, None)
      case ThrewError(m) => SubmitEffect(true, Some(m))
      case ThrewOther => SubmitEffect(true, Some(AnalyseFailedMessage))
  }

  /** A url containing "youtu.be" at any position passes the shape check. */
  lemma ShortLinkAnywhere(prefix: string, suffix: string)
    ensures LooksLikeYoutube(prefix + "youtu.be" + suffix)
  {
    var url := prefix + "youtu.be" + suffix;
    assert OccursAt(url, "youtu.be", |prefix|);
    IncludesIff(url, "youtu.be");
  }

  /** The check is case-sensitive: an upper-case host does not pass. */
  lemma UpperCaseRejected()
    ensures !LooksLikeYoutube("YOUTUBE.COM")
  {
    var h := "YOUTUBE.COM";
    assert forall k :: 0 <= k < |h| ==> h[k] != 'y';
    FirstCharMissing(h, "youtube.com");
    FirstCharMissing(h, "youtu.be");
  }

  /** A needle whose first character never appears in the haystack is not included. */
  lemma FirstCharMissing(haystack: string, needle: string)
    requires needle != [] && forall k :: 0 <= k < |haystack| ==> haystack[k] != needle[0]
    ensures !Includes(haystack, needle)
  {
    IncludesIff(haystack, needle);
    forall i | 0 <= i <= |haystack| - |needle| ensures !OccursAt(haystack, needle, i) {
      assert haystack[i..i + |needle|][0] == haystack[i];
    }
  }

  /** What the component renders. */
  datatype View = VideoInput | UpgradeNotice

  /** Signed-out users see the form; signed-in users whose analysis or transcription usage is
      exceeded see the upgrade notice; everyone else sees the form. */
  function Render(isSignedIn: bool, analysisExceeded: bool, transcriptionExceeded: bool): (v: View)
    ensures v == UpgradeNotice <==> isSignedIn && (analysisExceeded || transcriptionExceeded)
  {
    if !isSignedIn then VideoInput
    else if analysisExceeded || transcriptionExceeded then UpgradeNotice
    else VideoInput
  }
}
