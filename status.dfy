/**
 * getCurrentStatus: the snapshot built from the cached playback record, the
 * clock, the artwork cache and the colour measures.
 */
module Status {
  import opened Options
  import opened Text
  import opened Progress
  import opened Palette
  import opened Artwork

  datatype Track = Track(name: string, album: Album, artists: seq<string>, durationMs: nat)

  /**
   * One answer of the "currently playing" query, stamped with the time (ms)
   * at which the poller stored it.
   */
  datatype PlaybackRecord = PlaybackRecord(playing: bool, progressMs: nat, item: Track, endpoint: string, timestampMs: nat)

  /** The snapshot reads the first artist's name, so a record needs one. */
  predicate HasArtist(rec: PlaybackRecord) {
    |rec.item.artists| > 0
  }

  /**
   * What the snapshot builder takes from outside: the current time in ms, the
   * cache directory, the outcomes of the artwork requests and file writes, the
   * colours decoded from a cache file (none when it does not decode), the
   * contrast measure and the hue rotation.
   */
  datatype Environment = Environment(
    nowMs: nat,
    cacheDir: string,
    io: ArtworkIo,
    decode: string -> seq<Color16>,
    contrast: (Rgba, Rgba) -> real,
    hueRotate: (Rgba, int) -> Rgba)

  /** The report map, one field per key; the floating-point percentages are left out. */
  datatype Report = Report(
    timestamp: nat,
    playbackState: bool,
    track: string,
    album: string,
    artist: string,
    endpoint: string,
    progressMs: nat,
    durationMs: nat,
    remainingMs: nat,
    progressStr: string,
    durationStr: string,
    remainingStr: string,
    albumArtUrl: string,
    albumArtColorRgb: string,
    albumArtColors: seq<Color16>,
    textColorRgb: string,
    textColor: seq<nat>,
    progressColorRgb: string,
    progressColor: seq<nat>)

  /**
   * The colours extracted for an artwork URL, and the cache files afterwards:
   * nothing is fetched for an empty URL, and colours are read only from a
   * returned file that exists (opening a missing file yields no colours).
   */
  function ArtworkColors(url: string, env: Environment, files: set<string>): (out: (seq<Color16>, set<string>))
    ensures url == "" ==> out == ([], files)
    ensures out.0 != [] ==> CacheFileName(env.cacheDir, url) in out.1
    ensures files <= out.1
  {
    if url == "" then ([], files)
    else
      var d := DownloadAlbumArt(url, env.cacheDir, env.io, files);
      if d.filename != "" && d.filename in d.files then (env.decode(d.filename), d.files) else ([], d.files)
  }

  /**
   * The report map of a record, given the extrapolated progress, the artwork
   * URL and colours, and the chosen colours with their comma-joined text.
   */
  function MakeReport(
    rec: PlaybackRecord, nowMs: nat, progress: nat, url: string, colors: seq<Color16>,
    dominantStr: string, text: Rgba, textStr: string, accent: Rgba, accentStr: string): Report
    requires HasArtist(rec) && progress <= rec.item.durationMs
  {
    var duration := rec.item.durationMs;
    Report(
      nowMs / 1000, rec.playing, rec.item.name, rec.item.album.name, rec.item.artists[0], rec.endpoint,
      progress, duration, duration - progress,
      FormatClock(progress), FormatClock(duration), FormatClock(duration - progress),
      url, dominantStr, colors,
      textStr, Channels(text),
      accentStr, Channels(accent))
  }

  /** The snapshot of a record and the cache files after building it. */
  function StatusOf(rec: PlaybackRecord, env: Environment, files: set<string>): (Report, set<string>)
    requires HasArtist(rec) && rec.timestampMs <= env.nowMs
  {
    var elapsed := ElapsedMs(env.nowMs, rec.timestampMs);
    var progress := AdjustedProgress(rec.progressMs, rec.item.durationMs, elapsed);
    var url := AlbumArtURL(rec.item.album);
    var artwork := ArtworkColors(url, env, files);
    var dominant := DominantChannels(artwork.0);
    var base := OpaqueRgba(dominant);
    var text := BestContrasting(base, [Black, White], env.contrast);
    var accent := BestContrasting(base, ProgressCandidates(base, env.hueRotate), env.contrast);
    var report := MakeReport(
      rec, env.nowMs, progress, url, artwork.0,
      CommaJoined(dominant), text, CommaJoined(Channels(text)), accent, CommaJoined(Channels(accent)));
    (report, artwork.1)
  }

  /**
   * The progress fields of a snapshot: progress at most the duration and never
   * behind the polled value (when that was within the track), remaining the
   * rest of the track, and each clock string naming the whole seconds of its
   * field.
   */
  lemma StatusProgress(rec: PlaybackRecord, env: Environment, files: set<string>)
    requires HasArtist(rec) && rec.timestampMs <= env.nowMs
    ensures var r := StatusOf(rec, env, files).0;
      && r.durationMs == rec.item.durationMs
      && r.progressMs <= r.durationMs
      && (rec.progressMs <= r.durationMs ==> rec.progressMs <= r.progressMs)
      && r.progressMs + r.remainingMs == r.durationMs
      && r.remainingMs == RemainingMs(rec.progressMs, rec.item.durationMs, ElapsedMs(env.nowMs, rec.timestampMs))
      && ParseClock(r.progressStr) == Some((r.progressMs / 60000, r.progressMs / 1000 % 60))
      && ParseClock(r.durationStr) == Some((r.durationMs / 60000, r.durationMs / 1000 % 60))
      && ParseClock(r.remainingStr) == Some((r.remainingMs / 60000, r.remainingMs / 1000 % 60))
  {
    var r := StatusOf(rec, env, files).0;
    ClockRoundTrip(r.progressMs);
    ClockRoundTrip(r.durationMs);
    ClockRoundTrip(r.remainingMs);
  }

  /**
   * The colour strings of a snapshot are three decimal fields with two commas
   * that read back as the triples: the dominant triple of bytes, and the
   * channels of the text and progress colours.
   */
  lemma StatusColorStrings(rec: PlaybackRecord, env: Environment, files: set<string>)
    requires HasArtist(rec) && rec.timestampMs <= env.nowMs
    ensures var r := StatusOf(rec, env, files).0;
      && ParseCommaJoined(r.albumArtColorRgb) == Some(DominantChannels(r.albumArtColors))
      && Count(r.albumArtColorRgb, ',') == 2
      && ParseCommaJoined(r.textColorRgb) == Some(r.textColor)
      && Count(r.textColorRgb, ',') == 2
      && ParseCommaJoined(r.progressColorRgb) == Some(r.progressColor)
      && Count(r.progressColorRgb, ',') == 2
  {
    var r := StatusOf(rec, env, files).0;
    CommaJoinedRoundTrip(DominantChannels(r.albumArtColors));
    CommaJoinedRoundTrip(r.textColor);
    CommaJoinedRoundTrip(r.progressColor);
  }

  /**
   * The text colour is black or white whenever either contrasts positively
   * with the dominant colour, and the progress colour is one of the five
   * harmonic candidates whenever one of them does.
   */
  lemma StatusTextAndProgressColors(rec: PlaybackRecord, env: Environment, files: set<string>)
    requires HasArtist(rec) && rec.timestampMs <= env.nowMs
    ensures var r := StatusOf(rec, env, files).0;
      var base := OpaqueRgba(DominantChannels(r.albumArtColors));
      var candidates := ProgressCandidates(base, env.hueRotate);
      && (env.contrast(base, Black) > 0.0 || env.contrast(base, White) > 0.0 ==>
            r.textColor == Channels(Black) || r.textColor == Channels(White))
      && ((exists j :: 0 <= j < 5 && env.contrast(base, candidates[j]) > 0.0) ==>
            exists j :: 0 <= j < 5 && r.progressColor == Channels(candidates[j]))
  {
    var r := StatusOf(rec, env, files).0;
    var base := OpaqueRgba(DominantChannels(r.albumArtColors));
    var candidates := ProgressCandidates(base, env.hueRotate);
    BestContrastingIsCandidate(base, [Black, White], env.contrast);
    assert env.contrast(base, Black) > 0.0 ==> env.contrast(base, [Black, White][0]) > 0.0;
    assert env.contrast(base, White) > 0.0 ==> env.contrast(base, [Black, White][1]) > 0.0;
    BestContrastingIsCandidate(base, candidates, env.contrast);
  }

  /**
   * An album without images resolves no artwork: nothing is fetched or
   * written, and the snapshot shows the fallback colour "248,236,235".
   */
  lemma StatusWithoutArtwork(rec: PlaybackRecord, env: Environment, files: set<string>)
    requires HasArtist(rec) && rec.timestampMs <= env.nowMs
    requires rec.item.album.images == []
    ensures var (r, filesAfter) := StatusOf(rec, env, files);
      && filesAfter == files
      && r.albumArtUrl == ""
      && r.albumArtColors == []
      && r.albumArtColorRgb == "248,236,235"
  {
    DefaultColorString();
  }

  /**
   * getCurrentStatus: no report for an empty cache; otherwise the snapshot of
   * the cached record, built step by step as the source does.
   */
  method GetCurrentStatus(state: Option<PlaybackRecord>, env: Environment, files: set<string>)
    returns (report: Option<Report>, filesAfter: set<string>)
    requires state.Some? ==> HasArtist(state.value) && state.value.timestampMs <= env.nowMs
    ensures state.None? ==> report.None? && filesAfter == files
    ensures state.Some? ==> report == Some(StatusOf(state.value, env, files).0) && filesAfter == StatusOf(state.value, env, files).1
  {
    if state.None? {
      return None, files;
    }
    var rec := state.value;
    var elapsed := ElapsedMs(env.nowMs, rec.timestampMs);
    var progress := AdjustedProgress(rec.progressMs, rec.item.durationMs, elapsed);

    var url := AlbumArtURL(rec.item.album);
    var artwork := ArtworkColors(url, env, files);
    var colors := artwork.0;
    filesAfter := artwork.1;

    var dominant := DominantChannels(colors);
    var dominantStr := FormatChannels(dominant);
    var base := OpaqueRgba(dominant);

    var text := ProvideTextColor(base, env.contrast);
    var textStr := FormatChannels(Channels(text));

    var accent := ChooseBestContrastingColor(base, ProgressCandidates(base, env.hueRotate), env.contrast);
    var accentStr := FormatChannels(Channels(accent));

    report := Some(MakeReport(rec, env.nowMs, progress, url, colors, dominantStr, text, textStr, accent, accentStr));
  }

  /**
   * json.Marshal fails on the NaN percentage that a zero duration produces
   * (0.0 / 0.0); every other report serializes.
   */
  predicate Serializable(r: Report) {
    r.durationMs != 0
  }
}
