/** The transcript action: format segment start offsets as `m:ss`, map segments to entries,
    and guard the action on the signed-in user. */
module Transcript {
  import opened Common

  predicate IsDigit(c: char)
  {
    '0' <= c <= '9'
  }

  predicate AllDigits(s: string)
  {
    forall i :: 0 <= i < |s| ==> IsDigit(s[i])
  }

  /** `n.toString()` for a non-negative integer: decimal digits, no leading zero. */
  function NatToString(n: nat): (s: string)
    ensures |s| >= 1 && AllDigits(s)
    ensures s[0] == '0' ==> s == "0"
  {
    if n < 10 then ["0123456789"[n]]
    else NatToString(n / 10) + ["0123456789"[n % 10]]
  }

  /** The value of a string of decimal digits. */
  function DigitsValue(s: string): nat
    requires AllDigits(s)
  {
    if s == [] then 0
    else DigitsValue(s[..|s| - 1]) * 10 + (s[|s| - 1] as int - '0' as int)
  }

  /** Reading back the decimal string gives the number. */
  lemma {:induction false} DigitsRoundTrip(n: nat)
    ensures DigitsValue(NatToString(n)) == n
  {
    var s := NatToString(n);
    if n >= 10 {
      DigitsRoundTrip(n / 10);
      assert s[..|s| - 1] == NatToString(n / 10);
    }
  }

  /** `s.padStart(2, "0")`. */
  function PadStart2(s: string): (r: string)
    ensures |s| >= 2 ==> r == s
    ensures |s| < 2 ==> |r| == 2 && r[2 - |s|..] == s && forall i :: 0 <= i < 2 - |s| ==> r[i] == '0'
  {
    if |s| >= 2 then s else if |s| == 1 then "0" + s else "00"
  }

  /** `formatTimestamp`: whole minutes, with no hour rollover, then a colon and the seconds
      within the minute as exactly two digits 00..59. */
  function FormatTimestamp(startMs: nat): (r: string)
    ensures |r| >= 4 && r[..|r| - 3] == NatToString(startMs / 60000) && r[|r| - 3] == ':'
    ensures '0' <= r[|r| - 2] <= '5' && IsDigit(r[|r| - 1])
  {
    var minutes := startMs / 60000;
    var seconds := (startMs % 60000) / 1000;
    SecondsField(seconds);
    var r := NatToString(minutes) + ":" + PadStart2(NatToString(seconds));
    assert r[..|r| - 3] == NatToString(minutes);
    r
  }

  /** The first position of `c` in `s`, if any. */
  function IndexOf(s: string, c: char): (r: Option<nat>)
    ensures r.Some? ==> r.value < |s| && s[r.value] == c && c !in s[..r.value]
    ensures r.None? ==> c !in s
  {
    if s == [] then None
    else if s[0] == c then Some(0)
    else match IndexOf(s[1..], c)
      case None => None
      case Some(k) => assert s[..k + 1] == [s[0]] + s[1..][..k]; Some(k + 1)
  }

  /** Reads an `m:ss` timestamp back into its minutes and seconds fields. */
  function ParseTimestamp(t: string): Option<(nat, nat)>
  {
    match IndexOf(t, ':')
    case None => None
    case Some(k) =>
      var m, s := t[..k], t[k + 1..];
      if m != [] && |s| == 2 && AllDigits(m) && AllDigits(s) then Some((DigitsValue(m), DigitsValue(s)))
      else None
  }

  /** Round trip: the printed fields read back as minutes m and seconds s with s below 60 and
      m*60000 + s*1000 <= startMs < m*60000 + s*1000 + 1000. */
  lemma TimestampRoundTrip(startMs: nat)
    ensures var p := ParseTimestamp(FormatTimestamp(startMs));
      p.Some? && p.value.1 < 60 &&
      p.value.0 * 60000 + p.value.1 * 1000 <= startMs < p.value.0 * 60000 + p.value.1 * 1000 + 1000
  {
    var minutes := startMs / 60000;
    var seconds := (startMs % 60000) / 1000;
    var m := NatToString(minutes);
    var ss := PadStart2(NatToString(seconds));
    var t := FormatTimestamp(startMs);
    assert t == m + ":" + ss;
    assert ':' !in m;
    IndexOfAfter(m, ss, ':');
    assert t[..|m|] == m && t[|m| + 1..] == ss;
    DigitsRoundTrip(minutes);
    SecondsField(seconds);
  }

  /** The first `c` of `a + [c] + b` is just after `a` when `a` has none. */
  lemma {:induction false} IndexOfAfter(a: string, b: string, c: char)
    requires c !in a
    ensures IndexOf(a + [c] + b, c) == Some(|a|)
  {
    if a != [] {
      assert (a + [c] + b)[1..] == a[1..] + [c] + b;
      IndexOfAfter(a[1..], b, c);
    }
  }

  /** The padded seconds field is two digits, the first at most 5, reading back as the seconds. */
  lemma SecondsField(seconds: nat)
    requires seconds < 60
    ensures var ss := PadStart2(NatToString(seconds));
      |ss| == 2 && AllDigits(ss) && ss[0] <= '5' && DigitsValue(ss) == seconds
  {
    var ss := PadStart2(NatToString(seconds));
    DigitsRoundTrip(seconds);
    if seconds < 10 {
      assert ss == ['0', "0123456789"[seconds]];
      assert ss[..1] == "0";
    } else {
      assert NatToString(seconds) == ["0123456789"[seconds / 10]] + ["0123456789"[seconds % 10]];
      assert ss == NatToString(seconds);
    }
  }

  /** An hour is printed as sixty minutes. */
  lemma OneHour()
    ensures FormatTimestamp(3600000) == "60:00"
  {
    assert NatToString(60) == NatToString(6) + ['0'];
  }

  /** One transcript segment of the source: its snippet text, when present, and start offset. */
  datatype Segment = Segment(snippetText: Option<string>, startMs: nat)

  /** The optional layers of the transcript payload: `content?.body?.initial_segments`. */
  datatype Body = Body(initialSegments: seq<Segment>)
  datatype Content = Content(body: Option<Body>)
  datatype TranscriptData = TranscriptData(content: Option<Content>)

  datatype Entry = Entry(text: string, timestamp: string)

  /** `snippet.text ?? "N/A"`: only a missing text is replaced; an empty text is kept. */
  function TextOf(seg: Segment): (t: string)
    ensures seg.snippetText.None? ==> t == "N/A"
    ensures seg.snippetText.Some? ==> t == seg.snippetText.value
  {
    match seg.snippetText
    case Some(text) => text
    case None => "N/A"
  }

  /** The `.map` over the initial segments: one entry per segment, in the same order. */
  function MapSegments(segs: seq<Segment>): (es: seq<Entry>)
    ensures |es| == |segs|
    ensures forall i :: 0 <= i < |segs| ==>
      es[i].text == TextOf(segs[i]) && es[i].timestamp == FormatTimestamp(segs[i].startMs)
  {
    if segs == [] then []
    else [Entry(TextOf(segs[0]), FormatTimestamp(segs[0].startMs))] + MapSegments(segs[1..])
  }

  /** The entries of a fetched transcript; a missing content or body yields no entries. */
  function Entries(data: TranscriptData): (es: seq<Entry>)
    ensures data.content.None? || data.content.value.body.None? ==> es == []
    ensures data.content.Some? && data.content.value.body.Some? ==>
      es == MapSegments(data.content.value.body.value.initialSegments)
  {
    match data.content
    case None => []
    case Some(content) =>
      match content.body
      case None => []
      case Some(body) => MapSegments(body.initialSegments)
  }

  /** What fetching the transcript does: throw, or return its payload. */
  datatype FetchReply = FetchThrew(error: string) | Fetched(data: TranscriptData)

  datatype TranscriptResult = TranscriptResult(transcript: seq<Entry>, cache: string)

  /** The action either throws or returns its record. */
  datatype Outcome = Thrown(message: string) | Returned(result: TranscriptResult)

  const UserNotFound := "User not found"
  const NotCached := "thise was not cached"

  /** `getYoutubeTranscript`: with no user it throws before fetching; otherwise it always
      fetches (there is no cache lookup), passes a fetch error on, and tags the result as not
      cached. */
  function GetYoutubeTranscript(videoId: string, user: Option<User>, fetch: string -> FetchReply): (o: Outcome)
    ensures !SignedIn(user) ==> o == Thrown(UserNotFound)
    ensures SignedIn(user) && fetch(videoId).FetchThrew? ==> o == Thrown(fetch(videoId).error)
    ensures SignedIn(user) && fetch(videoId).Fetched? ==>
      o == Returned(TranscriptResult(Entries(fetch(videoId).data), NotCached))
  {
    if !SignedIn(user) then Thrown(UserNotFound)
    else match fetch(videoId)
      case FetchThrew(e) => Thrown(e)
      case Fetched(data) => Returned(TranscriptResult(Entries(data), NotCached))
  }

  /** With no user the fetcher does not take part: any two fetchers give the same outcome. */
  lemma NoUserNeverFetches(videoId: string, user: Option<User>, f1: string -> FetchReply, f2: string -> FetchReply)
    requires !SignedIn(user)
    ensures GetYoutubeTranscript(videoId, user, f1) == GetYoutubeTranscript(videoId, user, f2)
  {
  }

  /** A successful result is always tagged as not cached. */
  lemma AlwaysTaggedNotCached(videoId: string, user: Option<User>, fetch: string -> FetchReply)
    requires SignedIn(user) && fetch(videoId).Fetched?
    ensures GetYoutubeTranscript(videoId, user, fetch).result.cache == "thise was not cached"
  {
  }
}
