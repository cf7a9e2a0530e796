# Stream scheduler: the platform clients, in Dafny

This project models the two platform clients of the stream scheduler
back end, the code that turns what YouTube and Twitch answer into one list
of `StreamData` records (thumbnail, title, channel name, date-time,
status, stream URL, video ID, platform).

- `stream.dfy` (module `Stream`): the `StreamData` record
  (`internal/api/services/stream.go:10-19`), the status and platform tags,
  the outbound `Request` shape and the two ways a fetch can fail.
- `youtube.dfy` (module `Youtube`): `GetYoutubeStreams`. It searches the
  channels, collects the video IDs in order, fetches their details, and
  keeps only the videos that have a lifecycle instant. Each kept video is
  classified as `ended`, `live` or `upcoming`, in that priority, and is
  given a thumbnail from the fallback chain high, medium, default.
- `twitch.dfy` (module `Twitch`): `getAppAccessToken` (an empty token is an
  error) and `GetTwitchStreams`. It checks the credentials, builds one
  `user_id=` parameter per channel, rejects any status other than 200, and
  turns every stream into a `live` record. The `{width}` and `{height}`
  placeholders of the thumbnail template become 480 and 270.
- `strings.dfy` (module `Strings`): the parts of Go's `strings` package
  used above. `Join` is `strings.Join` and `ReplaceFirst` is
  `strings.Replace(…, 1)`. They are related to the reference definitions
  `Split` and `IndexOf`.
- `outcomes.dfy` (module `Outcomes`): `Option` and `Result`.

Both clients are imperative in the source: loops append to slices, and
variables are reassigned in branches. They are modelled as methods. The two
loops of each client are helper methods with loop invariants
(`CollectVideoIds`, `NormaliseItems`, `BuildQueryParams`, `BuildRecords`).
Each is proved against a specification function or predicate. The per-item
decisions are pure functions, and lemmas state their properties.

Network traffic and JSON decoding are inputs. Each response arrives already
decoded, or as a `FetchError` (`CallFailed` or `DecodeFailed`). The Twitch
streams reply also carries its status code. Each client method returns the
list of requests it issued, in order. That makes "no request is made when
the channel list is empty" something the contracts can state. The
credentials that the source reads from the environment are parameters.

A `time.Time` is the datatype `Time`. `ZeroValue` is Go's zero struct: the
field was absent or null. A `Decoded` value carries its RFC 3339 rendering
and whether it denotes the zero instant. The source uses two different
zero tests:

- an equality test against the zero struct, at `youtube.go:104-110`;
- `IsZero`, at `youtube.go:115-127`.

They differ on the zero instant written with a non-UTC offset. That value
passes the first test and is then dropped by the second `continue`. The
model keeps both tests, as written.

Two HTTP statuses are never checked:

- The YouTube client never looks at the HTTP status of its two calls. An
  error answer whose body still decodes yields no items.
- The token request's status is not checked either. Only an empty decoded
  token fails.

## Model

| member | source | states |
|---|---|---|
| `Youtube.GetYoutubeStreams` | internal/api/services/youtube.go:48-150 | Empty channel list: empty list, no request. Missing API key: error, no request. A failed search call or decode: that error after the search request. No search items: empty list. Otherwise both requests are issued, the second with the video IDs, and the result is the videos error or exactly `Normalised` of the detail items |
| `Youtube.CollectVideoIds` | internal/api/services/youtube.go:74-77 | the loop's result is `VideoIds` of the search items |
| `Youtube.VideoIds` | internal/api/services/youtube.go:74-77 | one ID per search item, same length, same order |
| `Youtube.Classify` | internal/api/services/youtube.go:112-127 | Drops an item iff none of the three instants is set. The status is `ended` iff the end is set; `live` iff there is no end and the start is set; `upcoming` iff only the scheduled start is set. The instant returned is the one the status names, and it is non-zero |
| `Youtube.Format` | internal/api/services/youtube.go:142 | the RFC 3339 rendering is never empty and is the decoded instant's own rendering |
| `Youtube.PickThumbnail` | internal/api/services/youtube.go:129-135 | Total. Gives high if set, else medium if set, else default. The result is one of the three, and it is empty iff all three are |
| `Youtube.WatchUrl` | internal/api/services/youtube.go:144 | the watch-page prefix followed by the video ID, which can be read back from the URL |
| `Youtube.Normalise` | internal/api/services/youtube.go:100-146 | An item gives a record iff it is a broadcast. The record has the item's ID, its watch URL and platform `youtube`, and copies title and channel title. Its thumbnail is the fallback choice. An actual end makes it `ended`, dated by the end; otherwise an actual start makes it `live`, dated by the start; otherwise it is `upcoming`, dated by the scheduled start. The date-time is never empty |
| `Youtube.Normalised` | internal/api/services/youtube.go:99-147 | the filter-map never yields more records than items |
| `Youtube.NormaliseItems` | internal/api/services/youtube.go:99-147 | the loop, with its two `continue` skips, the status branches and the thumbnail reassignments, computes exactly `Normalised` of the items |
| `Youtube.NormalisedAppend` | internal/api/services/youtube.go:99-147 | normalising a concatenation concatenates the normalised parts, in order |
| `Youtube.NormalisedAround` | internal/api/services/youtube.go:99-147 | an item's record, if any, appears between the records of the items before it and those after it |
| `Youtube.NormalisedLength` | internal/api/services/youtube.go:99-127 | output length plus the number of non-broadcast items equals input length: every dropped item removes exactly one record |
| `Youtube.NormalisedRecords` | internal/api/services/youtube.go:137-146 | Every emitted record has status `ended`, `live` or `upcoming` and a non-empty date-time. Its platform is `youtube` and its URL is the watch page of its own ID. It is the record of some input item |
| `Twitch.GetAppAccessToken` | internal/api/services/twitch.go:37-56 | Succeeds iff the token reply decoded and its access token is non-empty, and then returns that token unchanged. A failed call or decode is reported as such; an empty token is `TokenMissing` |
| `Twitch.UserIdParams` | internal/api/services/twitch.go:76-79 | one `user_id=` + ID parameter per channel ID, in input order |
| `Twitch.BuildQueryParams` | internal/api/services/twitch.go:76-79 | the loop's result is `UserIdParams` of the channel IDs |
| `Twitch.QueryHasOneParamPerChannel` | internal/api/services/twitch.go:76-81 | with channel IDs free of `&`, the `&`-joined query splits back into exactly the parameter list |
| `Twitch.ThumbnailWithoutPlaceholders` | internal/api/services/twitch.go:109 | a template without `{width}` and `{height}` is emitted unchanged |
| `Twitch.ThumbnailSubstitutes` | internal/api/services/twitch.go:109 | `a{width}b{height}c` becomes `a480b270c` when `a` holds no `{width}` and `a480b` holds no `{height}`; later placeholders in `c` stay |
| `Twitch.BuildRecords` | internal/api/services/twitch.go:105-117 | One record per stream, in order. Each has the stream ID, the substituted thumbnail, title, `user_name` as channel name, `started_at` verbatim, status `live`, `https://www.twitch.tv/` + `user_name` and platform `twitch` |
| `Twitch.GetTwitchStreams` | internal/api/services/twitch.go:59-120 | Empty channel list: empty list, no request. A missing client ID or secret: error, no request. A token error is propagated unchanged after the token request. An unbuildable request, a failed call, a status other than 200 (carried in the error) and an undecodable body each fail. Otherwise the token request and the streams request with the `user_id` query and bearer token are issued, and the records are those of `BuildRecords` |
| `Strings.ReplaceFirstPresent` | internal/api/services/twitch.go:109 | `strings.Replace(s, pat, rep, 1)` puts `rep` in place of the first occurrence of `pat` and leaves the rest, later occurrences included |
| `Strings.ReplaceFirstAbsent` | internal/api/services/twitch.go:109 | with no occurrence, the string is unchanged |
| `Strings.IndexOf` | internal/api/services/twitch.go:109 | the first occurrence: it occurs there, and nowhere before; None means it occurs nowhere |
| `Strings.SplitJoin` | internal/api/services/twitch.go:81 | `strings.Join` with a separator absent from every part is undone by splitting at it |

## Left out

- HTTP transport is not modelled: `http.Get`, `http.Post`, `client.Do` and closing the bodies. Each answer is an input, and the requests are reported as values.
- JSON decoding is not modelled. A body that fails to decode is the input `DecodeFailed`, or `None` for the Twitch streams body.
- `http.NewRequest` fails only on a URL it cannot parse. URL parsing is not modelled: the input `InvalidRequest` says that it failed.
- Environment lookups (`os.Getenv`) are parameters.
- Time parsing and RFC 3339 formatting are not modelled. A decoded instant carries its rendering. Go's normalisation of what it re-formats (fractional seconds, offsets) is not modelled.
- The OAuth client-credentials exchange is reduced to its request URL and the empty-token rule. The bearer and `Client-Id` headers are recorded but not interpreted.
- Error values are constructors, not Go's message texts. The wrapped cause of a failed call is kept only as `CallFailed` or `DecodeFailed`.
- `ExpiresIn`, `TokenType`, `PublishedAt`, `user_id` and `type` are decoded but never used by the source. They are fields of the model's datatypes and are not used there either.
- `GetCombinedStreams` (`stream.go`) is not modelled. It fans the two clients out to goroutines, its merge order depends on which one finishes first, and the error it returns is arbitrary. It also calls a `GetYouTubeStreams` that does not exist.
- `firebase.go`, `handlers.go` and `main.go` are not part of this model. They are Firestore I/O, an HTTP adapter and server start-up.
- Channel IDs, video IDs and keys are put into URLs without escaping, as the source does. `Twitch.QueryHasOneParamPerChannel` therefore assumes IDs free of `&`.
