/** The `titleGeneration` server action: check the user, ask the text generator for a title,
    save it to the `titles` table, track the usage event, and map every failure point to a
    fixed result record. */
module TitleGeneration {
  import opened Common
  import Flags
  import Titles
  import Tracking

  /** What the text generator's `generateContent` call does: throw, or answer with a text
      (`None` when `response.text()` is undefined). */
  datatype GenReply = GenThrew | GenText(text: Option<string>)

  /** What the save (the `generate` mutation through the client) does: throw, or return an id.
      An id of 0 stands for a falsy id. */
  datatype SaveReply = SaveThrew | SaveReturned(id: nat)

  /** What the usage `track` call does. */
  datatype TrackReply = TrackOk | TrackThrew

  /** The `{success, data}` / `{success, error}` record the action returns. */
  datatype TitleResult = TitleOk(data: string) | TitleErr(error: string)

  /** The action either throws or returns a result record. */
  datatype Outcome = Thrown(message: string) | Returned(result: TitleResult)

  const UserNotFound := "User not found"
  const Fallback := "Unable to generate title"
  const SystemError := "Failed to generate title (System error)"
  const SaveFailed := "Failed to save title to database"
  const GenerateFailed := "Failed to generate title"

  /** The characters `String.prototype.trim` removes: ECMAScript WhiteSpace (tab, vertical tab,
      form feed, space, no-break space, byte order mark and the other Zs space separators) and
      LineTerminator (line feed, carriage return, line and paragraph separators). */
  const Whitespace: set<char> := {
    '\t', '\U{000B}', '\U{000C}', ' ', '\U{00A0}', '\U{FEFF}',
    '\n', '\r', '\U{2028}', '\U{2029}',
    '\U{1680}', '\U{2000}', '\U{2001}', '\U{2002}', '\U{2003}', '\U{2004}', '\U{2005}',
    '\U{2006}', '\U{2007}', '\U{2008}', '\U{2009}', '\U{200A}', '\U{202F}', '\U{205F}', '\U{3000}'
  }

  predicate IsWhitespace(c: char)
  {
    c in Whitespace
  }

  /** The number of whitespace characters at the start of `s`. */
  function LeadingWhitespace(s: string): (n: nat)
    ensures n <= |s|
    ensures forall i :: 0 <= i < n ==> IsWhitespace(s[i])
    ensures n < |s| ==> !IsWhitespace(s[n])
    decreases |s|
  {
    if s != [] && IsWhitespace(s[0]) then LeadingWhitespace(s[1..]) + 1 else 0
  }

  /** The number of whitespace characters at the end of `s`. */
  function TrailingWhitespace(s: string): (n: nat)
    ensures n <= |s|
    ensures forall i :: |s| - n <= i < |s| ==> IsWhitespace(s[i])
    ensures n < |s| ==> !IsWhitespace(s[|s| - 1 - n])
    decreases |s|
  {
    if s != [] && IsWhitespace(s[|s| - 1]) then TrailingWhitespace(s[..|s| - 1]) + 1 else 0
  }

  /** `String.prototype.trim`: the empty string exactly when `s` is all whitespace; otherwise
      the slice of `s` between its leading and its trailing whitespace, which starts and ends
      with a non-whitespace character. */
  function Trim(s: string): (r: string)
    ensures r == [] <==> forall i :: 0 <= i < |s| ==> IsWhitespace(s[i])
    ensures r != [] ==> !IsWhitespace(r[0]) && !IsWhitespace(r[|r| - 1])
    ensures r != [] ==>
      LeadingWhitespace(s) < |s| - TrailingWhitespace(s) &&
      r == s[LeadingWhitespace(s)..|s| - TrailingWhitespace(s)]
  {
    var lead := LeadingWhitespace(s);
    if lead == |s| then []
    else
      var trail := TrailingWhitespace(s);
      s[lead..|s| - trail]
  }

  /** Trimming twice is trimming once. */
  lemma TrimIdempotent(s: string)
    ensures Trim(Trim(s)) == Trim(s)
  {
    var r := Trim(s);
    if r != [] {
      assert LeadingWhitespace(r) == 0;
      assert TrailingWhitespace(r) == 0;
      assert r[0..|r|] == r;
    }
  }

  /** `text()?.trim() || "Unable to generate title"`: never empty; the trimmed text when it has
      a non-whitespace character, the fallback otherwise. */
  function ChooseTitle(text: Option<string>): (title: string)
    ensures title != ""
    ensures text.Some? && Trim(text.value) != "" ==> title == Trim(text.value)
    ensures text.None? || (forall i :: 0 <= i < |text.value| ==> IsWhitespace(text.value[i])) ==>
      title == Fallback
  {
    if text.Some? then OrElse(Some(Trim(text.value)), Fallback) else Fallback
  }

  /** The result the action produces from its collaborators' replies. */
  function Respond(user: Option<User>, gen: GenReply, save: SaveReply, track: TrackReply): (o: Outcome)
    // with no signed-in user it throws, whatever the collaborators would have done
    ensures !SignedIn(user) <==> o == Thrown(UserNotFound)
    ensures o.Thrown? ==> o.message == UserNotFound
    // the "System error" record is never produced, because of the fallback title
    ensures o != Returned(TitleErr(SystemError))
    ensures SignedIn(user) && gen.GenThrew? ==> o == Returned(TitleErr(GenerateFailed))
    // a thrown save, a falsy id and a failed tracking call all report a failed save
    ensures SignedIn(user) && gen.GenText? && !(save.SaveReturned? && save.id != 0 && track.TrackOk?) ==>
      o == Returned(TitleErr(SaveFailed))
    // success exactly when every step succeeds, with the chosen title as data
    ensures o.Returned? && o.result.TitleOk? <==>
      SignedIn(user) && gen.GenText? && save.SaveReturned? && save.id != 0 && track.TrackOk?
    ensures o.Returned? && o.result.TitleOk? ==> o.result.data == ChooseTitle(gen.text)
  {
    if !SignedIn(user) then Thrown(UserNotFound)
    else match gen
      case GenThrew => Returned(TitleErr(GenerateFailed))
      case GenText(text) =>
        var title := ChooseTitle(text);
        if title == "" then Returned(TitleErr(SystemError))
        else if save.SaveThrew? then Returned(TitleErr(SaveFailed))
        else if save.id == 0 then Returned(TitleErr(SaveFailed))
        else if track.TrackThrew? then Returned(TitleErr(SaveFailed))
        else Returned(TitleOk(title))
  }

  /** Whether the action saves a row: signed in, the generator answered, the save call reached
      the table, and the table accepted the fields (the title is never empty). */
  predicate Saves(user: Option<User>, videoId: string, gen: GenReply, saveReached: bool)
  {
    SignedIn(user) && gen.GenText? && saveReached && videoId != ""
  }

  /** The usage event tracked for a title generation by this user. */
  function TitleEvent(userId: string): (e: Tracking.TrackEvent)
    ensures e.event == "generate-title" && e.companyId == userId && e.userId == userId
  {
    Tracking.TrackEvent(Flags.EventOf(Flags.TitleGenerations), userId, userId)
  }

  /** One run of the action against the table and the usage log. The collaborators' behaviour
      is given: the generator's reply, whether the save call reaches the table, and whether the
      tracking call is delivered. At most one row is saved and at most one event is tracked,
      the event only after the row, and the result is `Respond` of what the steps did. */
  method Run(table: Titles.TitleTable, log: Tracking.UsageLog, user: Option<User>, videoId: string,
             gen: GenReply, saveReached: bool, trackDelivered: bool) returns (o: Outcome)
    requires table.Valid()
    modifies table, log
    ensures table.Valid()
    ensures !SignedIn(user) ==> o == Thrown(UserNotFound)
    ensures table.rows ==
      if Saves(user, videoId, gen, saveReached)
      then old(table.rows) + [Titles.Row(old(table.nextId), videoId, user.value.id, ChooseTitle(gen.text))]
      else old(table.rows)
    ensures log.events ==
      if Saves(user, videoId, gen, saveReached) && trackDelivered
      then old(log.events) + [TitleEvent(user.value.id)]
      else old(log.events)
    ensures o == Respond(user, gen,
      if Saves(user, videoId, gen, saveReached) then SaveReturned(old(table.nextId)) else SaveThrew,
      if trackDelivered then TrackOk else TrackThrew)
  {
    if !SignedIn(user) {
      return Thrown(UserNotFound);
    }
    var uid := user.value.id;
    if gen.GenThrew? {
      return Returned(TitleErr(GenerateFailed));
    }
    var title := ChooseTitle(gen.text);
    if title == "" {
      return Returned(TitleErr(SystemError));
    }
    if !saveReached {
      return Returned(TitleErr(SaveFailed));
    }
    var saved := table.Generate(videoId, uid, title);
    if saved.Threw? || saved.id == 0 {
      return Returned(TitleErr(SaveFailed));
    }
    var tracked := log.Track(TitleEvent(uid), trackDelivered);
    if !tracked {
      return Returned(TitleErr(SaveFailed));
    }
    o := Returned(TitleOk(title));
  }
}
