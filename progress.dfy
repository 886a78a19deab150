/**
 * The integer part of the playback snapshot: how long ago the record was
 * stamped, the progress extrapolated from it and clamped to the track length,
 * the time remaining, and the M:SS rendering of a position.
 */
module Progress {
  import opened Options
  import opened Text

  /**
   * Milliseconds since a record stamped at stampMs, measured the way the
   * snapshot builder does: from time.Unix(stampMs / 1000, 0), the whole second
   * at or before the stamp. The result over-counts by the stamp's sub-second
   * part, so it lies within a second above the true age.
   */
  function ElapsedMs(nowMs: nat, stampMs: nat): (e: nat)
    requires stampMs <= nowMs
    ensures nowMs - stampMs <= e < nowMs - stampMs + 1000
    ensures e - (nowMs - stampMs) == stampMs % 1000
  {
    nowMs - stampMs / 1000 * 1000
  }

  /**
   * The polled progress moved forward by the elapsed time and clamped to the
   * duration: the smaller of the two, and exactly the duration once the sum
   * reaches it.
   */
  function AdjustedProgress(progressMs: nat, durationMs: nat, elapsedMs: nat): (p: nat)
    ensures p <= durationMs && p <= progressMs + elapsedMs
    ensures p == durationMs || p == progressMs + elapsedMs
    ensures p == durationMs <==> progressMs + elapsedMs >= durationMs
  {
    var sum := progressMs + elapsedMs;
    if sum >= durationMs then durationMs else sum
  }

  /** Extrapolated progress never moves backwards as more time passes. */
  lemma AdjustedProgressMonotonic(progressMs: nat, durationMs: nat, e1: nat, e2: nat)
    requires e1 <= e2
    ensures AdjustedProgress(progressMs, durationMs, e1) <= AdjustedProgress(progressMs, durationMs, e2)
  {
  }

  /**
   * Time left in the track (remaining_ms): never negative, never more than the
   * duration, and zero exactly when the extrapolated position reached the end.
   */
  function RemainingMs(progressMs: nat, durationMs: nat, elapsedMs: nat): (r: int)
    ensures 0 <= r <= durationMs
    ensures r == 0 <==> progressMs + elapsedMs >= durationMs
  {
    durationMs - AdjustedProgress(progressMs, durationMs, elapsedMs)
  }

  /** "%d:%02d" of whole minutes and the seconds within the minute. */
  function FormatClock(ms: nat): (s: string)
    ensures |s| >= 4 && s[|s| - 3] == ':'
    ensures AllDigits(s[..|s| - 3]) && AllDigits(s[|s| - 2..])
  {
    Decimal(ms / 60000) + ":" + ZeroPad2(ms / 1000 % 60)
  }

  /** Reads "M:SS" back into minutes and seconds. */
  function ParseClock(s: string): Option<(nat, nat)> {
    var parts := Split(s, ':');
    if |parts| == 2 && parts[0] != "" && AllDigits(parts[0]) && |parts[1]| == 2 && AllDigits(parts[1])
    then Some((ParseDecimal(parts[0]), ParseDecimal(parts[1])))
    else None
  }

  /** The minutes field is ms / 60000 and the two-digit seconds field (ms / 1000) % 60. */
  lemma ClockRoundTrip(ms: nat)
    ensures ParseClock(FormatClock(ms)) == Some((ms / 60000, ms / 1000 % 60))
  {
    var m := Decimal(ms / 60000);
    var sec := ZeroPad2(ms / 1000 % 60);
    assert ':' !in m && ':' !in sec;
    assert FormatClock(ms) == m + [':'] + sec;
    SplitAtSeparator(m, sec, ':');
    SplitWithoutSeparator(sec, ':');
    ParseDecimalOfDecimal(ms / 60000);
    ParseZeroPad2(ms / 1000 % 60);
  }

  lemma MinutesOfWholeSeconds(ms: nat)
    ensures ms / 60000 == ms / 1000 / 60
  {
    var q, r := ms / 1000, ms % 1000;
    var a, b := q / 60, q % 60;
    assert ms == 60000 * a + (1000 * b + r);
    assert 0 <= 1000 * b + r < 60000;
  }

  /**
   * The clock string names the whole seconds of ms: its minutes times sixty
   * plus its seconds (always below 60) is ms / 1000.
   */
  lemma ClockDenotesWholeSeconds(ms: nat)
    ensures ParseClock(FormatClock(ms)).Some?
    ensures var (m, sec) := ParseClock(FormatClock(ms)).value; sec < 60 && m * 60 + sec == ms / 1000
  {
    ClockRoundTrip(ms);
    MinutesOfWholeSeconds(ms);
  }

  /**
   * A record polled at 50000 ms into a 200000 ms track, read 10000 ms later,
   * shows 60000 ms of progress as "1:00" of "3:20", with "2:20" left.
   */
  lemma ExampleSnapshot()
    ensures AdjustedProgress(50000, 200000, 10000) == 60000
    ensures RemainingMs(50000, 200000, 10000) == 140000
    ensures FormatClock(60000) == "1:00"
    ensures FormatClock(200000) == "3:20"
    ensures FormatClock(140000) == "2:20"
  {
  }
}
