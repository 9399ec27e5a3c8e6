# Video assistant server rules, modelled in Dafny

This project models the server-side rules of a web app. A signed-in user submits a video URL, gets its
transcript and details, and generates titles and images for it. The app is mostly UI wired to remote
services (identity, the video metadata API, a text generator, an image generator, an entitlement and
usage-tracking service, and a document database). What is modelled is the logic between those calls:

- the append-only `titles` table, with its validating insert and its query by user and video
  (`Titles`, a class over a row sequence and an id counter);
- the title-generation action: the user check, the trimmed title with a fallback, save then track,
  and the fixed result record for each failure point (`TitleGeneration`, `Tracking`);
- the image tool's entitlement gate (`GenerateImage`);
- transcript timestamp formatting, the segment-to-entry mapping and the action's guard (`Transcript`);
- the video-details record built from optional fields with fallbacks and defaults (`VideoDetails`);
- the feature flags and their usage events (`Flags`);
- the URL form's submit validation and its choice of what to render (`VideoForm`);
- the token-exhaustion rule of the usage component (`Usage`);
- the analysis redirect (`Analyse`).

Remote services are parameters. Either their reply is passed in (`GenReply`, `FetchReply`), or they are
function-typed arguments (the policy oracle, the image generator, the metadata API, the transcript
source, the video-id extractor). "X is not called" is stated as "the result is the same for any X".
JavaScript's `||` on strings is `Common.OrElse`, and `?.` chains are `Option` values. A thrown
exception is an `Outcome` variant.

Some behaviours one might expect of such an app are not in the code, and the model does not add them:

- There is no server-side agent loop; the chat route is a stub.
- There is no transcript cache; the transcript action always fetches.
- There is no per-video "create once" record.
- Title generation checks only that a user is signed in, not an entitlement.
- A tracking failure after a saved title is not swallowed: the action reports "Failed to save title
  to database", and the row stays saved.

## Model

| member | source | states |
|---|---|---|
| `Titles.TitleTable.Generate` | convex/titles.ts:19-45 | An empty videoId, userId or title throws "Missing required fields" and changes nothing. Otherwise exactly one row is appended, even when an identical row exists. Earlier rows are unchanged. The returned id is positive and differs from every existing id. The id invariant is kept. |
| `Titles.TitleTable.List` | convex/titles.ts:4-17 | Returns exactly the stored rows whose userId and videoId both match, in insertion order. It has no modifies clause, so the table is unchanged. |
| `Titles.MatchingMembers` | convex/titles.ts:10-15 | A row is in the query result iff it is stored and matches both the user and the video. |
| `Titles.MatchingOrdered` | convex/titles.ts:10-15 | The query result keeps table order: ordered ids stay ordered. |
| `Titles.MatchingAppend` | convex/titles.ts:10-37 | After an insert, the query result gains the new row at its end if the row matches, and is otherwise unchanged. |
| `Tracking.UsageLog.Track` | actions/titleGeneration.ts:59-67 | A delivered track call appends exactly its event. A failed call appends nothing and is reported as a failure. |
| `TitleGeneration.Trim` | actions/titleGeneration.ts:37 | `trim()` is empty iff the text is all ECMAScript whitespace. Otherwise it is the slice between the leading and trailing whitespace, with non-whitespace at both ends. |
| `TitleGeneration.TrimIdempotent` | actions/titleGeneration.ts:37 | Trimming a trimmed title changes nothing. |
| `TitleGeneration.ChooseTitle` | actions/titleGeneration.ts:37 | The title is never empty. It is the trimmed generator text when that text has a non-whitespace character. It is "Unable to generate title" when the text is missing or all whitespace. |
| `TitleGeneration.Respond` | actions/titleGeneration.ts:17-86 | With no user or an empty id, the action throws "User not found" whatever the collaborators would do. The "System error" record is never produced. A thrown generator gives "Failed to generate title". A thrown save, a falsy id or a failed track all give "Failed to save title to database". Success happens iff every step succeeds, and its data is the chosen title. |
| `TitleGeneration.TitleEvent` | actions/titleGeneration.ts:59-67 | The tracked event is "generate-title", with the user id as both the company id and the user id. |
| `TitleGeneration.Run` | actions/titleGeneration.ts:12-87 | With no signed-in user the action throws before touching the table or the log. A row (videoId, user id, title) is saved iff the generator answered, the save reached the table and videoId is non-empty. The event is tracked iff that row was saved and the track call was delivered. After a tracking failure the row stays saved. The result is `Respond` of what the steps did. |
| `GenerateImage.ContextOf` | tools/generateImage.ts:15-20 | The oracle context uses the tool's userId as both the company id and the user id. |
| `GenerateImage.Execute` | tools/generateImage.ts:14-35 | A rejected entitlement check rejects `execute` with its error. The result is the "must upgrade" record iff the oracle answers false for "image-generation" in that context. An image is returned iff the oracle answers true and the generator, given the prompt and the tool's own videoId, produces one; it is that image. A rejected generator rejects `execute` with its error. |
| `GenerateImage.DeniedIgnoresGenerator` | tools/generateImage.ts:22-31 | On denial the result is exactly the "must upgrade" record, the same for any generator, so the generator takes no part. |
| `GenerateImage.CheckThrownIgnoresGenerator` | tools/generateImage.ts:22-25 | A rejected entitlement check fails closed: `execute` rejects with the oracle's error, the same for any generator, so the generator takes no part. |
| `GenerateImage.ArgumentVideoIdIgnored` | tools/generateImage.ts:7-33 | The videoId argument of the tool call does not affect the result. |
| `Transcript.NatToString` | actions/getYoutubeTranscript.ts:16 | Decimal printing gives at least one digit, and no leading zero except for "0". |
| `Transcript.DigitsRoundTrip` | actions/getYoutubeTranscript.ts:16 | Reading a printed number back gives the number. |
| `Transcript.PadStart2` | actions/getYoutubeTranscript.ts:16 | `padStart(2, "0")` leaves strings of two or more characters alone. A shorter string is left-padded with zeros to length 2. |
| `Transcript.FormatTimestamp` | actions/getYoutubeTranscript.ts:13-17 | The minutes field is floor(ms/60000) printed in decimal, with no hour rollover. Then come a colon and two digits, the first of them 0 to 5. |
| `Transcript.SecondsField` | actions/getYoutubeTranscript.ts:15-16 | The padded seconds field is two digits that read back as the seconds. |
| `Transcript.TimestampRoundTrip` | actions/getYoutubeTranscript.ts:13-17 | Reading the printed timestamp back gives fields m and s with s < 60 and m*60000 + s*1000 <= ms < m*60000 + s*1000 + 1000. |
| `Transcript.OneHour` | actions/getYoutubeTranscript.ts:14 | 3600000 ms prints as "60:00". |
| `Transcript.TextOf` | actions/getYoutubeTranscript.ts:31 | A missing snippet text becomes "N/A". A present text, including the empty string, is kept. |
| `Transcript.MapSegments` | actions/getYoutubeTranscript.ts:28-33 | One entry per segment, in the same order, each with that segment's text and formatted timestamp. |
| `Transcript.Entries` | actions/getYoutubeTranscript.ts:28-34 | A missing content or body yields no entries. Otherwise the result is the mapped initial segments. |
| `Transcript.GetYoutubeTranscript` | actions/getYoutubeTranscript.ts:44-61 | With no user the action throws "User not found". Otherwise it fetches: a fetch error is re-thrown, and a fetched transcript is returned with the "thise was not cached" tag. |
| `Transcript.NoUserNeverFetches` | actions/getYoutubeTranscript.ts:46-55 | With no user the outcome is the same for any transcript source, so nothing is fetched. |
| `Transcript.AlwaysTaggedNotCached` | actions/getYoutubeTranscript.ts:53-59 | Every successful result carries the "thise was not cached" tag. |
| `Common.OrElse` | actions/getVideoDetails.ts:43 | `a \|\| d` on an optional string keeps a present, non-empty `a`. Otherwise it gives `d`. |
| `VideoDetails.FirstItem` | actions/getVideoDetails.ts:22 | `items?.[0]` is present iff the items are present and non-empty, and it is then the first item. |
| `VideoDetails.FirstNonEmpty` | actions/getVideoDetails.ts:44-48 | The result is "" iff no candidate is present and non-empty. Otherwise it is the first such candidate. |
| `VideoDetails.Build` | actions/getVideoDetails.ts:41-63 | Each field is its source field when that field is present and non-empty; otherwise it is the fixed default ("Unknown Title", "0" views, "Not Available" likes and comments, "Unknown Channel", "0" subscribers, the clock for publishedAt). The thumbnail is the first non-empty of maxres, high and default, else "". The channel title comes from the video snippet. The channel thumbnail is taken only from the default size. |
| `VideoDetails.GetVideoDetails` | actions/getVideoDetails.ts:10-69 | A missing API key gives null. So do a thrown request, a missing video item and a missing channel item. The channel is looked up by `channelId \|\| ""`. Otherwise the result is the record built from the first video and channel items. |
| `VideoDetails.NoKeyNoRequest` | actions/getVideoDetails.ts:11-14 | Without an API key the result is null for any metadata service, so no request is made. |
| `VideoDetails.FirstNonEmptyBlank` | actions/getVideoDetails.ts:44-48 | An empty thumbnail url is passed over exactly like a missing one. |
| `VideoDetails.EmptyIsMissing` | actions/getVideoDetails.ts:31-61 | Replacing every empty string field by a missing one changes neither the record nor the channel lookup id. |
| `VideoDetails.FieldsNeverEmpty` | actions/getVideoDetails.ts:43-61 | Given a non-empty clock, every field of the record except the two thumbnails is non-empty. |
| `Flags.Value` | features/flag.ts:1-7 | Every flag has a non-empty string value. |
| `Flags.ValuesDistinct` | features/flag.ts:1-7 | Two flags have the same value iff they are the same flag. |
| `Flags.EventsTotal` | features/flag.ts:9-25 | Every flag has an event entry. |
| `Flags.EventOf` | features/flag.ts:9-25 | TRANSCRIPTION maps to "transcribe", IMAGE_GENERATION to "generate-image" and TITLE_GENERATIONS to "generate-title". The event is empty iff the flag is SCRIPT_GENERATION. The event equals the flag's value iff the flag is ANALYSE_VIDEO. |
| `Flags.EventsDistinct` | features/flag.ts:9-25 | Distinct flags report distinct events. |
| `VideoForm.IncludesIff` | components/YoutubeVideoForm.tsx:78 | `includes` holds iff the needle occurs at some position: anywhere, and case-sensitively. |
| `VideoForm.FirstCharMissing` | components/YoutubeVideoForm.tsx:78 | A needle whose first character does not occur in the haystack is not included. |
| `VideoForm.HandleSubmit` | components/YoutubeVideoForm.tsx:55-92 | The checks run in the order sign-in, presence, shape, and only the first failing check shows its message. The server action is invoked iff all three pass. After invocation, a thrown Error shows its message and any other thrown value shows the generic failure text. |
| `VideoForm.ShortLinkAnywhere` | components/YoutubeVideoForm.tsx:78-81 | Any url containing "youtu.be" at any position passes the shape check. |
| `VideoForm.UpperCaseRejected` | components/YoutubeVideoForm.tsx:78-81 | "YOUTUBE.COM" fails the shape check. |
| `VideoForm.Render` | components/YoutubeVideoForm.tsx:94-117 | The upgrade notice is shown iff the user is signed in and analysis or transcription usage is exceeded. Everyone else sees the form. |
| `Usage.HasUsedAllTokens` | components/Usage.tsx:24 | Exhausted iff usage and allocation are both present, both nonzero, and usage >= allocation. |
| `Usage.ZeroNeverExhausted` | components/Usage.tsx:24 | A zero or missing usage or allocation is never exhausted. |
| `Usage.ExhaustedMonotone` | components/Usage.tsx:24 | For a fixed allocation, every usage at or above an exhausted usage is exhausted too. |
| `Usage.ViewOf` | components/Usage.tsx:26-46 | Pending shows loading, before anything else. Otherwise an exhausted state shows the exhaustion message, and anything else shows the placeholder. |
| `Analyse.AnalysisPath` | actions/analyseYoutubeVideo.ts:15 | The path is "/video/", then the id unchanged, then "/analysis". |
| `Analyse.PathRoundTrip` | actions/analyseYoutubeVideo.ts:15 | The id can be read back from its path, so distinct ids redirect to distinct paths. |
| `Analyse.AnalyseYoutubeVideo` | actions/analyseYoutubeVideo.ts:6-16 | A missing or empty url returns without redirecting, and so does a falsy extracted id. Otherwise the action redirects to exactly "/video/" + id + "/analysis", and the id read back from that path is the extractor's output. |

## Left out

- The agent chat route (app/api/chat/route.ts) is a stub with no tool loop or step bound, so no conversation session is modelled.
- No transcript cache and no "create once" video record are modelled, because the code has neither.
- The title prompt text, the generator model name and its system instruction are left out. Only the generator's reply, as an input, drives the model.
- The remote clients are not modelled as code: Clerk `currentUser`, the Gemini client, the Convex client, the Schematic client, youtubei.js and googleapis. Their behaviour is an input. Failures of the Gemini, Convex, Schematic, youtubei.js and googleapis calls, and of the image generator, are reply variants of that input.
- TitleGeneration.Respond, TitleGeneration.Run and Transcript.GetYoutubeTranscript: the user is an optional input, so a rejected Clerk `currentUser` lookup (actions/titleGeneration.ts:17, actions/getYoutubeTranscript.ts:46, awaited outside any try) is not modelled. The action would then reject with Clerk's error rather than "User not found".
- Tracking.UsageLog.Track: a failed track call is modelled as recording nothing. What the remote service keeps after a failed call is not visible from the code.
- TitleGeneration.Run: a save that reaches the table fails only on an empty field. Any other failure of the mutation call is modelled as the call not reaching the table (`saveReached` false), which leaves the table unchanged.
- actions/dalleImageGeneration.ts is not part of this model: it is a fetch, upload and storage pipeline with a random seed.
- The image generator `pollinationsImageGeneration` is not part of this model. It is an abstract function returning an image or a rejection.
- The clock: `new Date().toISOString()` is the `now` parameter of `VideoDetails.Build`.
- Logging (`console.error`, `console.log`) is left out, and so are toast styling and durations. Only the toast text is modelled.
- JSX rendering and React hooks are left out. The hook values (`isSignedIn`, `featureUsageExceeded`, `featureUsage`, `featureAllocation`, `isPending`) are boolean or optional-number inputs, and an undefined hook value counts as false.
- Transcript.FormatTimestamp: offsets are non-negative integers. Negative, fractional and NaN values of `Number(start_ms)` are not modelled. JavaScript's truncating `%` and `Math.floor` would print them differently. Offsets of 2^53 ms or more are not modelled either: there the float division rounds, and from 10^21 minutes on the minutes field is printed in exponent notation.
- Usage.HasUsedAllTokens: usage and allocation are non-negative integers. Negative values and NaN are not modelled; the monotonicity property does not hold for negative allocations.
- VideoForm.HandleSubmit: the url field is a string or absent. A file value in the form field is not modelled.
- Next.js `redirect` is modelled as returning the target path, not as the framework's thrown navigation signal.
- The `getVideoIdFromUrl` extractor is not part of this model. It is an abstract function returning an optional string.
- UI-only components (AiAgentChat, YoutubeVideoDetails, TitleGenerations, Header, AgentPulse, layout, providers, the plan page) are left out, since they are rendering and effect lifecycle.
