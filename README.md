# spotifymonitor: the playback report pipeline, in Dafny

spotifymonitor polls Spotify's "currently playing" endpoint every five
seconds, caches the last answer, and once a second turns it into a report
(extrapolated progress, `M:SS` strings, a colour triple taken from the album
artwork, a black-or-white text colour and a harmonic progress colour chosen
by contrast). The report is posted to an optional webhook and pushed to every
connected WebSocket client; clients whose write fails are dropped.

This project models the integer and bookkeeping core of that pipeline, all of
which lives in `main.go`:

- `text.dfy` (module `Text`): `strconv.Itoa`, the `%02d` verb, `strings.Join`
  and `strings.Split` on non-negative integers and one separator, with the
  parsers that undo them.
- `progress.dfy` (module `Progress`): the elapsed time since the record's
  stamp, the extrapolated progress clamped to the track length, the remaining
  time and the `M:SS` rendering.
- `palette.dfy` (module `Palette`): the album-art colour triple (fallback
  248,236,235, otherwise the upper byte of each 16-bit channel), the
  colour-string builder as the slice-filling loop it is, the arg-max loop of
  `chooseBestContrastingColor` proved against a specification function, the
  text colour from {black, white}, and the five harmonic candidates.
- `artwork.dfy` (module `Artwork`): `getAlbumArtURL`, `filepath.Base`, the
  cache file name, and every decision of `downloadAlbumArt` over an abstract
  set of cache files and abstract network and file-system outcomes.
- `status.dfy` (module `Status`): `getCurrentStatus` as a method that follows
  the source step by step, proved equal to the specification function
  `StatusOf`, and lemmas about the report that function builds.
- `monitor.dfy` (module `Server`): class `Monitor` holding the cached record
  and the set of connected clients, with the poll transitions, connect,
  disconnect, the delivery-and-prune loop, one broadcaster tick and the page
  handler.

Behaviour of the code worth knowing, all of it modelled as written:

- Before the first successful poll the page handler writes into the nil map
  `getCurrentStatus` returns and panics (`Server.Monitor.Render`).
- The elapsed time is measured from `time.Unix(stamp/1000, 0)`, the whole
  second at or before the stamp, so it over-counts by `stamp % 1000` ms
  (`Progress.ElapsedMs`).
- A zero-length track makes `progress_pct` the float `0/0`, a NaN, which
  `json.Marshal` refuses, so the broadcaster skips that tick entirely
  (`Status.Serializable`, `Server.Monitor.Tick`): the code does not guard
  against a zero duration.
- A HEAD answer whose Content-Type is not exactly `image/jpeg` returns an empty
  file name with no error, not an error value.
- When the GET or the file creation fails, `downloadAlbumArt` still returns the
  cache file name (with an error); the caller then finds no file and falls back
  to the default colour (`Artwork.FailedGetReturnsName`, `Status.ArtworkColors`).
- When the copy into a newly created cache file fails, the truncated file stays
  and is a cache hit from then on (`Artwork.FailedCopyIsCached`).
- The cache key is only the URL's last path segment: two URLs that end in the
  same segment share one cache file (`Artwork.CacheFileNameOfUrl`).
- The arg-max starts from the zero colour and contrast 0.0 and uses a strict
  `>`: ties go to the earlier candidate, and when no candidate contrasts
  positively the result is the zero colour, which is in no candidate list.

## Model

| member | source | states |
|---|---|---|
| `Text.Decimal` | main.go:210 | `strconv.Itoa` text: at least one character, decimal digits only, no leading zero unless the number is 0, one character exactly for numbers below 10 |
| `Text.ParseDecimalOfDecimal` | main.go:210 | reading the decimal text back gives the number |
| `Text.ZeroPad2` | main.go:266-268 | the `%02d` text is digits only, at least two long, exactly two below 100 |
| `Text.ParseZeroPad2` | main.go:266-268 | the padded text reads back as the number |
| `Text.SplitJoin` | main.go:213 | splitting a `strings.Join` at the separator gives the fields back when none holds it, and the joined text has one separator fewer than fields |
| `Text.CommaJoinedRoundTrip` | main.go:208-213 | a comma-joined list of n numbers has n decimal fields and n-1 commas and reads back as the numbers |
| `Progress.ElapsedMs` | main.go:177-180 | elapsed time measured from the whole second of the stamp is within one second above the true age, over by exactly the stamp's sub-second part |
| `Progress.AdjustedProgress` | main.go:180-183 | extrapolated progress is the minimum of progress + elapsed and the duration, and equals the duration exactly when the sum reaches it |
| `Progress.AdjustedProgressMonotonic` | main.go:180-183 | more elapsed time never gives less progress |
| `Progress.RemainingMs` | main.go:265 | remaining time is between 0 and the duration, and 0 exactly when the extrapolated sum reached the duration |
| `Progress.FormatClock` | main.go:266-268 | the position text is digits, a colon, and two digits |
| `Progress.ClockRoundTrip` | main.go:266-268 | the text reads back as minutes `ms/60000` and seconds `(ms/1000)%60` |
| `Progress.ClockDenotesWholeSeconds` | main.go:266-268 | the seconds field is below 60 and minutes*60 + seconds is the whole seconds of the position |
| `Progress.ExampleSnapshot` | main.go:263-268 | 50000 ms polled 10000 ms ago on a 200000 ms track shows 60000 ms, "1:00" of "3:20", 140000 ms and "2:20" left |
| `Palette.DominantChannels` | main.go:200-206 | the triple is three bytes: 248,236,235 without extracted colours, otherwise the upper byte of each 16-bit channel of the first colour |
| `Palette.OpaqueRgba` | main.go:217 | the opaque colour built with uint8 conversions keeps a byte triple unchanged |
| `Palette.DefaultColorString` | main.go:200-213 | the fallback colour string is "248,236,235" |
| `Palette.FormatChannels` | main.go:207-213 | the slice-filling loop and join produce the comma-joined decimal text of the channels |
| `Palette.ScanPicksFirstBest` | main.go:437-458 | the arg-max state is the zero colour and 0.0 when no contrast is positive, otherwise the first candidate with the highest (positive) contrast and that contrast |
| `Palette.FirstBestUnique` | main.go:452-455 | the first-best candidate index is unique |
| `Palette.BestContrastingIsCandidate` | main.go:437-458 | the chosen colour is a candidate or the zero colour, and a candidate whenever some contrast is positive |
| `Palette.ChooseBestContrastingColor` | main.go:437-459 | the loop returns the specification's choice: the zero colour if nothing contrasts positively, else the first best candidate (earliest wins ties) |
| `Palette.ProvideTextColor` | main.go:433-435 | black when its contrast is positive and not below white's, white when strictly higher and positive, the zero colour when neither is positive |
| `Palette.Harmonic` | main.go:473-516 | a hue-rotated candidate keeps the alpha of the colour it came from |
| `Palette.ProgressCandidates` | main.go:229-241 | five candidates in the order +120, +240, +30, -30, +180, all with the dominant colour's alpha |
| `Artwork.AlbumArtURL` | main.go:320-325 | the first image's URL, or "" for an album without images |
| `Artwork.Base` | main.go:349 | `filepath.Base` is never empty and holds no '/' except as the bare "/" |
| `Artwork.BaseOfUrl` | main.go:349 | the base of "<prefix>/<segment>" is the segment |
| `Artwork.CacheFileName` | main.go:349 | the cache file name ends in ".jpeg" and lies in the cache directory |
| `Artwork.CacheFileNameOfUrl` | main.go:349 | an artwork URL ending in "/<id>" is cached as "<dir>/<id>.jpeg" |
| `Artwork.DownloadAlbumArt` | main.go:327-387 | the returned name is "" or the cache name; HEAD is issued iff the URL is non-empty; GET only after a JPEG answer and a cache miss; the cache gains at most the cache name, and only after a GET whose file was created |
| `Artwork.DownloadEmptyUrl` | main.go:328-332 | an empty URL issues nothing and returns "" without error |
| `Artwork.DownloadHeadFailed` | main.go:334-340 | a failed HEAD probe returns "" with an error and issues no GET |
| `Artwork.DownloadRejectsNonJpeg` | main.go:342-346 | a Content-Type other than exactly "image/jpeg" returns "" without error and without GET |
| `Artwork.DownloadCacheHit` | main.go:348-355 | an existing cache file is returned without GET and without error |
| `Artwork.DownloadFetchesAndStores` | main.go:348-386 | on a cache miss whose GET, creation and copy succeed, the cache name comes back without error and the cache gains exactly that file |
| `Artwork.ResolveTwiceFetchesOnce` | main.go:348-385 | once a GET created the cache file, a second resolution of the URL issues no GET and, on a JPEG answer, returns the same file |
| `Artwork.FailedCopyIsCached` | main.go:372-383 | a failed copy reports an error but leaves a file that the next resolution serves as a cache hit |
| `Artwork.FailedGetReturnsName` | main.go:357-377 | a failed GET or file creation returns the cache file name together with an error, and no file is created |
| `Status.ArtworkColors` | main.go:185-198 | no request and no colours for an empty URL; colours only from an existing cache file; the cache only grows |
| `Status.StatusProgress` | main.go:176-268 | the report's progress is at most the duration and never behind a polled value within the track, its remaining time is `RemainingMs` of the record (so 0 exactly at the clamp), progress + remaining is the duration, and each `M:SS` field reads back as its value's minutes and seconds |
| `Status.StatusColorStrings` | main.go:200-251 | each colour string has two commas and reads back as its triple |
| `Status.StatusTextAndProgressColors` | main.go:216-243 | the text colour is black or white when either contrasts positively; the progress colour is one of the five candidates when one does |
| `Status.StatusWithoutArtwork` | main.go:185-213 | an album without images fetches nothing and shows "248,236,235" |
| `Status.GetCurrentStatus` | main.go:171-279 | no report for an empty cache; otherwise the report and cache files of `StatusOf` |
| `Server.Monitor.constructor` | main.go:32-42 | the monitor starts with no record and no clients |
| `Server.Monitor.PollSuccess` | main.go:140-144 | the record is replaced whole by the new one stamped with the current time; clients unchanged |
| `Server.Monitor.PollFailure` | main.go:133-138 | a failed poll changes nothing |
| `Server.Monitor.Connect` | main.go:159 | the client set gains the connection |
| `Server.Monitor.Disconnect` | main.go:161-167 | the client set loses the connection, and only it |
| `Server.Monitor.Broadcast` | main.go:307-317 | exactly the clients whose write failed are removed; all others remain and received the message |
| `Server.Monitor.Tick` | main.go:120-129 | a report is sent only when a playing record is cached and it serializes; then the webhook is posted if configured and failed clients are pruned; otherwise the clients are unchanged; the record never changes |
| `Server.Monitor.Render` | main.go:97-106 | before the first successful poll the request is aborted (the write into the nil snapshot map panics) and the cache is untouched; otherwise the template data is the cached record's snapshot plus the port and WebSocket URL, and the cache files are those the snapshot's artwork step leaves |

## Left out

- The OAuth flow, callback handler, token channel and Spotify client
  construction (main.go:56-117): external authentication.
- The HTTP server, template rendering, WebSocket upgrade, reads and writes,
  JSON marshalling and the webhook POST: I/O. Their effect is modelled by
  inputs: the set of clients whose write fails, whether a webhook URL is
  configured, and `Status.Serializable` for the marshalling outcome.
- Goroutines, `stateMutex` and `time.Sleep`: the poll loop and the broadcaster
  are modelled as sequential transitions of one object, so interleavings
  (a client connecting while the broadcaster iterates the map) are not
  modelled.
- The contrast ratio (`convertToXYZ`, `calculateContrastRatio`) and the HSL
  hue rotations: floating point over an external colour library. They are the
  parameters `contrast` and `hueRotate` of the model.
- `extractColors` and image decoding: the parameter `decode` gives the
  colours of an existing cache file, none when it does not decode.
- `progress_pct` and `progress_pct_str`: float division and formatting; only
  their effect on serialization (NaN for a zero duration) is modelled.
- `Artwork.CacheFileName`: does not model the lexical clean-up `filepath.Join`
  applies (collapsing "//", "." and ".." elements); the name is the directory,
  "/", the base and ".jpeg". For a base of "/" or ".." Go's name leaves the
  cache directory ("<dir>.jpeg", "..jpeg"); the model's does not.
- `Progress.ElapsedMs`: the clock is an input in whole milliseconds, and it is
  required not to be behind the record's stamp; a clock running backwards
  (which would give a negative elapsed time) is not modelled.
- Track positions and durations are non-negative unbounded integers; Go's
  64-bit `int` cannot overflow at track lengths, and negative values do not
  come from the upstream service.
- A record without a track item or without artists makes the source panic;
  the model requires an item by its types and an artist by `HasArtist`.
- `album_art_colors` is kept as the list of 16-bit colours the decoder gave;
  the images' width and height and the album's other fields are not modelled.
  `httpPort` and `wsURL` are not fields of `Report`; `Page.Rendered` carries
  them.
- Status.MakeReport: one clock reading stands for both the elapsed time and
  the report's `timestamp`; the source reads the clock again after the
  artwork download, which may take seconds.
- The HTML/JS template constant (main.go:518-658).
- Server.Monitor.Render: the template itself is not modelled, only the data
  handed to it. Its fields (`.Track`, `.Artist`, `.AlbumArtColorRGB`,
  `.ProgressStr`, ...) match none of the snapshot map's keys (`track`,
  `artist`, `album_art_color_rgb`, ...), so of that data only `wsURL` reaches
  the rendered page. The panic before the first poll is modelled as the
  `Aborted` outcome; `net/http`'s recovery of it is not modelled.
