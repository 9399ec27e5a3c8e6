/** The `getVideoDetails` action: look the video and its channel up, and build one details
    record from their optional fields with first-non-empty fallbacks and fixed defaults. */
module VideoDetails {
  import opened Common

  datatype Thumbnail = Thumbnail(url: Option<string>)
  /** The thumbnail sizes consulted; `defaultSize` is the API's `default` size. */
  datatype Thumbnails = Thumbnails(maxres: Option<Thumbnail>, high: Option<Thumbnail>, defaultSize: Option<Thumbnail>)

  datatype VideoSnippet = VideoSnippet(title: Option<string>, thumbnails: Option<Thumbnails>,
                                       publishedAt: Option<string>, channelTitle: Option<string>,
                                       channelId: Option<string>)
  datatype VideoStatistics = VideoStatistics(viewCount: Option<string>, likeCount: Option<string>,
                                             commentCount: Option<string>)
  datatype VideoItem = VideoItem(snippet: Option<VideoSnippet>, statistics: Option<VideoStatistics>)

  datatype ChannelSnippet = ChannelSnippet(thumbnails: Option<Thumbnails>)
  datatype ChannelStatistics = ChannelStatistics(subscriberCount: Option<string>)
  datatype ChannelItem = ChannelItem(snippet: Option<ChannelSnippet>, statistics: Option<ChannelStatistics>)

  /** What a `list` request of the metadata API does: throw, or answer with optional items. */
  datatype ListReply<T> = ListThrew | Listed(items: Option<seq<T>>)

  datatype Channel = Channel(title: string, thumbnail: string, subscribers: string)
  datatype Details = Details(title: string, thumbnail: string, publishedAt: string,
                             views: string, likes: string, comments: string, channel: Channel)

  const UnknownTitle := "Unknown Title"
  const UnknownChannel := "Unknown Channel"
  const NotAvailable := "Not Available"

  /** `items?.[0]`. */
  function FirstItem<T>(items: Option<seq<T>>): (r: Option<T>)
    ensures r.Some? <==> items.Some? && |items.value| > 0
    ensures r.Some? ==> r.value == items.value[0]
  {
    if items.Some? && |items.value| > 0 then Some(items.value[0]) else None
  }

  /** The first candidate that is present and non-empty, or "" when there is none. */
  function FirstNonEmpty(candidates: seq<Option<string>>): (r: string)
    ensures r == "" <==> forall i :: 0 <= i < |candidates| ==> candidates[i].None? || candidates[i].value == ""
    ensures r != "" ==> (exists i ::
      0 <= i < |candidates| && candidates[i] == Some(r) &&
      (forall j :: 0 <= j < i ==> candidates[j].None? || candidates[j].value == ""))
  {
    if candidates == [] then ""
    else if candidates[0].Some? && candidates[0].value != "" then candidates[0].value
    else
      var r := FirstNonEmpty(candidates[1..]);
      assert forall i :: 1 <= i < |candidates| ==> candidates[i] == candidates[1..][i - 1];
      r
  }

  function UrlOf(t: Option<Thumbnail>): Option<string>
  {
    if t.Some? then t.value.url else None
  }

  /** `snippet?.<field>` of the video, for its string fields. */
  function Title(v: VideoItem): Option<string> { if v.snippet.Some? then v.snippet.value.title else None }
  function PublishedAt(v: VideoItem): Option<string> { if v.snippet.Some? then v.snippet.value.publishedAt else None }
  function ChannelTitle(v: VideoItem): Option<string> { if v.snippet.Some? then v.snippet.value.channelTitle else None }
  function ChannelId(v: VideoItem): Option<string> { if v.snippet.Some? then v.snippet.value.channelId else None }

  /** `statistics?.<field>` of the video. */
  function ViewCount(v: VideoItem): Option<string> { if v.statistics.Some? then v.statistics.value.viewCount else None }
  function LikeCount(v: VideoItem): Option<string> { if v.statistics.Some? then v.statistics.value.likeCount else None }
  function CommentCount(v: VideoItem): Option<string> { if v.statistics.Some? then v.statistics.value.commentCount else None }

  /** `snippet?.thumbnails?.<size>?.url` for the video: maxres, high and default in that order. */
  function VideoThumbnailUrls(v: VideoItem): (urls: seq<Option<string>>)
    ensures |urls| == 3
  {
    if v.snippet.Some? && v.snippet.value.thumbnails.Some? then
      var ts := v.snippet.value.thumbnails.value;
      [UrlOf(ts.maxres), UrlOf(ts.high), UrlOf(ts.defaultSize)]
    else [None, None, None]
  }

  /** `snippet?.thumbnails?.default?.url` for the channel. */
  function ChannelThumbnailUrl(c: ChannelItem): Option<string>
  {
    if c.snippet.Some? && c.snippet.value.thumbnails.Some? then UrlOf(c.snippet.value.thumbnails.value.defaultSize)
    else None
  }

  function SubscriberCount(c: ChannelItem): Option<string>
  {
    if c.statistics.Some? then c.statistics.value.subscriberCount else None
  }

  /** The id the channel lookup is made with: `snippet?.channelId || ""`. */
  function ChannelIdOf(v: VideoItem): string
  {
    OrElse(ChannelId(v), "")
  }

  /** The details record. Every text field is the source field when present and non-empty and
      the fixed default otherwise; the thumbnail is the first non-empty size; the channel title
      comes from the video's snippet and the channel thumbnail only from its default size.
      `now` is the current time as an ISO string. */
  function Build(v: VideoItem, c: ChannelItem, now: string): (d: Details)
    ensures d.title == OrElse(Title(v), UnknownTitle)
    ensures d.thumbnail == FirstNonEmpty(VideoThumbnailUrls(v))
    ensures d.publishedAt == OrElse(PublishedAt(v), now)
    ensures d.views == OrElse(ViewCount(v), "0")
    ensures d.likes == OrElse(LikeCount(v), NotAvailable)
    ensures d.comments == OrElse(CommentCount(v), NotAvailable)
    ensures d.channel.title == OrElse(ChannelTitle(v), UnknownChannel)
    ensures d.channel.thumbnail == OrElse(ChannelThumbnailUrl(c), "")
    ensures d.channel.subscribers == OrElse(SubscriberCount(c), "0")
  {
    var urls := VideoThumbnailUrls(v);
    Details(
      OrElse(Title(v), UnknownTitle),
      OrElse(urls[0], OrElse(urls[1], OrElse(urls[2], ""))),
      OrElse(PublishedAt(v), now),
      OrElse(ViewCount(v), "0"),
      OrElse(LikeCount(v), NotAvailable),
      OrElse(CommentCount(v), NotAvailable),
      Channel(
        OrElse(ChannelTitle(v), UnknownChannel),
        OrElse(ChannelThumbnailUrl(c), ""),
        OrElse(SubscriberCount(c), "0")))
  }

  /** `getVideoDetails`: no API key, a thrown request, a missing video item or a missing channel
      item all give null; otherwise the record built from the first video and channel items.
      `videos` and `channels` are the metadata API's answers to a lookup by id. */
  function GetVideoDetails(apiKey: Option<string>, videoId: string,
                           videos: string -> ListReply<VideoItem>,
                           channels: string -> ListReply<ChannelItem>, now: string): (r: Option<Details>)
    ensures apiKey.None? || apiKey.value == "" ==> r.None?
    ensures r.Some? <==>
      apiKey.Some? && apiKey.value != "" && videos(videoId).Listed? &&
      FirstItem(videos(videoId).items).Some? &&
      channels(ChannelIdOf(FirstItem(videos(videoId).items).value)).Listed? &&
      FirstItem(channels(ChannelIdOf(FirstItem(videos(videoId).items).value)).items).Some?
    ensures r.Some? ==>
      var v := FirstItem(videos(videoId).items).value;
      r.value == Build(v, FirstItem(channels(ChannelIdOf(v)).items).value, now)
  {
    if apiKey.None? || apiKey.value == "" then None
    else match videos(videoId)
      case ListThrew => None
      case Listed(vitems) =>
        match FirstItem(vitems)
        case None => None
        case Some(v) =>
          match channels(ChannelIdOf(v))
          case ListThrew => None
          case Listed(citems) =>
            match FirstItem(citems)
            case None => None
            case Some(c) => Some(Build(v, c, now))
  }

  /** Without an API key no request takes part: any two answering services give the same null. */
  lemma NoKeyNoRequest(apiKey: Option<string>, videoId: string,
                       v1: string -> ListReply<VideoItem>, v2: string -> ListReply<VideoItem>,
                       c1: string -> ListReply<ChannelItem>, c2: string -> ListReply<ChannelItem>, now: string)
    requires apiKey.None? || apiKey.value == ""
    ensures GetVideoDetails(apiKey, videoId, v1, c1, now) == GetVideoDetails(apiKey, videoId, v2, c2, now) == None
  {
  }

  /** Lifting an empty string to a missing field: `||` treats the two alike. */
  function Blank(o: Option<string>): Option<string>
  {
    if o == Some("") then None else o
  }

  function BlankThumb(t: Option<Thumbnail>): Option<Thumbnail>
  {
    if t.Some? then Some(Thumbnail(Blank(t.value.url))) else None
  }

  function BlankThumbs(ts: Option<Thumbnails>): Option<Thumbnails>
  {
    if ts.Some? then Some(Thumbnails(BlankThumb(ts.value.maxres), BlankThumb(ts.value.high), BlankThumb(ts.value.defaultSize)))
    else None
  }

  /** The video item with every empty string field replaced by a missing one. */
  function BlankVideo(v: VideoItem): VideoItem
  {
    VideoItem(
      if v.snippet.Some? then
        var s := v.snippet.value;
        Some(VideoSnippet(Blank(s.title), BlankThumbs(s.thumbnails), Blank(s.publishedAt),
                          Blank(s.channelTitle), Blank(s.channelId)))
      else None,
      if v.statistics.Some? then
        var st := v.statistics.value;
        Some(VideoStatistics(Blank(st.viewCount), Blank(st.likeCount), Blank(st.commentCount)))
      else None)
  }

  /** The channel item with every empty string field replaced by a missing one. */
  function BlankChannel(c: ChannelItem): ChannelItem
  {
    ChannelItem(
      if c.snippet.Some? then Some(ChannelSnippet(BlankThumbs(c.snippet.value.thumbnails))) else None,
      if c.statistics.Some? then Some(ChannelStatistics(Blank(c.statistics.value.subscriberCount))) else None)
  }

  /** Blanking the video item blanks each field read from it. */
  lemma BlankVideoFields(v: VideoItem)
    ensures var b := BlankVideo(v);
      Title(b) == Blank(Title(v)) && PublishedAt(b) == Blank(PublishedAt(v)) &&
      ChannelTitle(b) == Blank(ChannelTitle(v)) && ChannelId(b) == Blank(ChannelId(v)) &&
      ViewCount(b) == Blank(ViewCount(v)) && LikeCount(b) == Blank(LikeCount(v)) &&
      CommentCount(b) == Blank(CommentCount(v))
  {
  }

  /** Blanking the video item blanks each of its thumbnail urls. */
  lemma BlankVideoThumbnails(v: VideoItem)
    ensures var urls := VideoThumbnailUrls(v);
      VideoThumbnailUrls(BlankVideo(v)) == [Blank(urls[0]), Blank(urls[1]), Blank(urls[2])]
  {
  }

  /** Blanking the channel item blanks each field read from it. */
  lemma BlankChannelFields(c: ChannelItem)
    ensures ChannelThumbnailUrl(BlankChannel(c)) == Blank(ChannelThumbnailUrl(c))
    ensures SubscriberCount(BlankChannel(c)) == Blank(SubscriberCount(c))
  {
  }

  /** `||` does not distinguish an empty string from a missing one. */
  lemma OrElseBlank(o: Option<string>, d: string)
    ensures OrElse(Blank(o), d) == OrElse(o, d)
  {
  }

  /** Nor does the first-non-empty choice among three candidates. */
  lemma FirstNonEmptyBlank(a: Option<string>, b: Option<string>, c: Option<string>)
    ensures FirstNonEmpty([Blank(a), Blank(b), Blank(c)]) == FirstNonEmpty([a, b, c])
  {
    assert [a, b, c][1..] == [b, c] && [b, c][1..] == [c] && [c][1..] == [];
    assert [Blank(a), Blank(b), Blank(c)][1..] == [Blank(b), Blank(c)];
    assert [Blank(b), Blank(c)][1..] == [Blank(c)] && [Blank(c)][1..] == [];
  }

  /** The record does not distinguish an empty field from a missing one. */
  lemma EmptyIsMissing(v: VideoItem, c: ChannelItem, now: string)
    ensures Build(BlankVideo(v), BlankChannel(c), now) == Build(v, c, now)
    ensures ChannelIdOf(BlankVideo(v)) == ChannelIdOf(v)
  {
    BlankVideoFields(v);
    BlankVideoThumbnails(v);
    BlankChannelFields(c);
    var urls := VideoThumbnailUrls(v);
    FirstNonEmptyBlank(urls[0], urls[1], urls[2]);
    assert urls == [urls[0], urls[1], urls[2]];
    OrElseBlank(Title(v), UnknownTitle);
    OrElseBlank(PublishedAt(v), now);
    OrElseBlank(ViewCount(v), "0");
    OrElseBlank(LikeCount(v), NotAvailable);
    OrElseBlank(CommentCount(v), NotAvailable);
    OrElseBlank(ChannelTitle(v), UnknownChannel);
    OrElseBlank(ChannelId(v), "");
    OrElseBlank(ChannelThumbnailUrl(c), "");
    OrElseBlank(SubscriberCount(c), "0");
    var d, e := Build(BlankVideo(v), BlankChannel(c), now), Build(v, c, now);
    assert d.title == e.title && d.publishedAt == e.publishedAt && d.views == e.views;
    assert d.likes == e.likes && d.comments == e.comments && d.thumbnail == e.thumbnail;
    assert d.channel == e.channel;
  }

  /** Every text field but the thumbnails always has a non-empty value (given a non-empty clock). */
  lemma FieldsNeverEmpty(v: VideoItem, c: ChannelItem, now: string)
    requires now != ""
    ensures var d := Build(v, c, now);
      d.title != "" && d.publishedAt != "" && d.views != "" && d.likes != "" && d.comments != "" &&
      d.channel.title != "" && d.channel.subscribers != ""
  {
  }
}
