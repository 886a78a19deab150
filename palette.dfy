/**
 * The colour side of the snapshot: the dominant colour triple taken from the
 * artwork (or the fallback), its comma-joined text, the arg-max selection of
 * the best-contrasting candidate, the text colour chosen from black and white,
 * and the harmonic candidates for the progress colour.
 *
 * The contrast measure and the hue rotation are floating-point code over an
 * external colour library; both are parameters here.
 */
module Palette {
  import opened Text

  type Byte = x: int | 0 <= x < 256
  type Channel16 = x: int | 0 <= x < 0x1_0000

  /** color.RGBA: four 8-bit channels. */
  datatype Rgba = Rgba(r: Byte, g: Byte, b: Byte, a: Byte)

  /** What the RGBA method of a color.Color reports: four 16-bit channels. */
  datatype Color16 = Color16(r: Channel16, g: Channel16, b: Channel16, a: Channel16)

  const Black := Rgba(0, 0, 0, 255)
  const White := Rgba(255, 255, 255, 255)
  /** The zero value of color.RGBA. */
  const Transparent := Rgba(0, 0, 0, 0)
  /** The dominant colour used when no colour was extracted from artwork. */
  const DefaultChannels: seq<nat> := [248, 236, 235]

  predicate IsByteTriple(t: seq<nat>) {
    |t| == 3 && forall i :: 0 <= i < 3 ==> t[i] < 256
  }

  /** b is the upper byte of the 16-bit channel ch, i.e. ch >> 8 == b. */
  predicate IsHighByte(b: int, ch: int) {
    b * 256 <= ch < b * 256 + 256
  }

  /**
   * The album-art colour triple: the fallback when nothing was extracted,
   * otherwise the upper byte of each of the first colour's red, green and blue
   * channels (an unsigned shift right by 8).
   */
  function DominantChannels(extracted: seq<Color16>): (t: seq<nat>)
    ensures IsByteTriple(t)
    ensures extracted == [] ==> t == DefaultChannels
    ensures extracted != [] ==>
      IsHighByte(t[0], extracted[0].r) && IsHighByte(t[1], extracted[0].g) && IsHighByte(t[2], extracted[0].b)
  {
    if extracted == [] then DefaultChannels
    else
      var c := extracted[0];
      [c.r / 256, c.g / 256, c.b / 256]
  }

  /** The red, green and blue channels of a colour as a triple. */
  function Channels(c: Rgba): seq<nat> {
    [c.r, c.g, c.b]
  }

  /**
   * The opaque color.RGBA built from a triple with uint8 conversions (which keep
   * the low byte); a triple of bytes passes through unchanged.
   */
  function OpaqueRgba(t: seq<nat>): (c: Rgba)
    requires |t| == 3
    ensures c.a == 255
    ensures IsByteTriple(t) ==> Channels(c) == t
  {
    Rgba(t[0] % 256, t[1] % 256, t[2] % 256, 255)
  }

  /** With no colour extracted the colour string is "248,236,235". */
  lemma DefaultColorString()
    ensures CommaJoined(DefaultChannels) == "248,236,235"
  {
  }

  /**
   * The colour-string builder: each channel through strconv.Itoa into a slice
   * of the same length, then strings.Join with ",".
   */
  method FormatChannels(channels: seq<nat>) returns (s: string)
    ensures s == CommaJoined(channels)
  {
    var strs := new string[|channels|];
    for i := 0 to |channels|
      invariant forall k :: 0 <= k < i ==> strs[k] == Decimal(channels[k])
    {
      strs[i] := Decimal(channels[i]);
    }
    if |channels| > 0 {
      DecimalFieldsAt(channels, 0);
    }
    forall k | 0 <= k < |channels|
      ensures strs[..][k] == DecimalFields(channels)[k]
    {
      DecimalFieldsAt(channels, k);
    }
    assert strs[..] == DecimalFields(channels);
    s := Join(strs[..], ',');
  }

  /**
   * The state of the arg-max loop of chooseBestContrastingColor after the
   * given candidates: the best colour so far and its contrast against base,
   * starting from the zero colour and 0.0 and replaced only on a strictly
   * greater contrast.
   */
  function Scan(base: Rgba, colors: seq<Rgba>, contrast: (Rgba, Rgba) -> real): (Rgba, real)
    decreases |colors|
  {
    if colors == [] then (Transparent, 0.0)
    else
      var (best, bestContrast) := Scan(base, colors[..|colors| - 1], contrast);
      var last := colors[|colors| - 1];
      if contrast(base, last) > bestContrast then (last, contrast(base, last)) else (best, bestContrast)
  }

  function BestContrasting(base: Rgba, colors: seq<Rgba>, contrast: (Rgba, Rgba) -> real): Rgba {
    Scan(base, colors, contrast).0
  }

  /** No candidate has a positive contrast against base. */
  ghost predicate NonePositive(base: Rgba, colors: seq<Rgba>, contrast: (Rgba, Rgba) -> real) {
    forall j :: 0 <= j < |colors| ==> contrast(base, colors[j]) <= 0.0
  }

  /**
   * Candidate k is the first one with the highest contrast, and that contrast
   * is positive: every earlier candidate is strictly lower, every later one no
   * higher.
   */
  ghost predicate IsFirstBest(base: Rgba, colors: seq<Rgba>, contrast: (Rgba, Rgba) -> real, k: int) {
    && 0 <= k < |colors|
    && contrast(base, colors[k]) > 0.0
    && (forall j :: 0 <= j < k ==> contrast(base, colors[j]) < contrast(base, colors[k]))
    && (forall j :: k < j < |colors| ==> contrast(base, colors[j]) <= contrast(base, colors[k]))
  }

  /** At most one index is the first best. */
  lemma FirstBestUnique(base: Rgba, colors: seq<Rgba>, contrast: (Rgba, Rgba) -> real, k1: int, k2: int)
    requires IsFirstBest(base, colors, contrast, k1) && IsFirstBest(base, colors, contrast, k2)
    ensures k1 == k2
  {
  }

  /**
   * The scan yields the zero colour and 0.0 when no contrast is positive, and
   * otherwise the first best candidate k together with its contrast.
   */
  lemma {:induction false} ScanPicksFirstBest(base: Rgba, colors: seq<Rgba>, contrast: (Rgba, Rgba) -> real)
    returns (k: int)
    ensures NonePositive(base, colors, contrast) ==> Scan(base, colors, contrast) == (Transparent, 0.0)
    ensures !NonePositive(base, colors, contrast) ==>
      IsFirstBest(base, colors, contrast, k) && Scan(base, colors, contrast) == (colors[k], contrast(base, colors[k]))
    decreases |colors|
  {
    k := 0;
    if colors != [] {
      var n := |colors|;
      var prefix := colors[..n - 1];
      var kp := ScanPicksFirstBest(base, prefix, contrast);
      var x := contrast(base, colors[n - 1]);
      var bc := Scan(base, prefix, contrast).1;
      if NonePositive(base, prefix, contrast) {
        if x > 0.0 {
          k := n - 1;
          assert IsFirstBest(base, colors, contrast, k) by {
            forall j | 0 <= j < n - 1 ensures contrast(base, colors[j]) < x {
              assert colors[j] == prefix[j];
            }
          }
        } else {
          assert NonePositive(base, colors, contrast) by {
            forall j | 0 <= j < n ensures contrast(base, colors[j]) <= 0.0 {
              if j < n - 1 { assert colors[j] == prefix[j]; }
            }
          }
        }
      } else {
        assert bc == contrast(base, colors[kp]) && colors[kp] == prefix[kp];
        assert contrast(base, colors[kp]) > 0.0;
        if x > bc {
          k := n - 1;
          assert IsFirstBest(base, colors, contrast, k) by {
            forall j | 0 <= j < n - 1 ensures contrast(base, colors[j]) < x {
              assert colors[j] == prefix[j];
            }
          }
        } else {
          k := kp;
          assert IsFirstBest(base, colors, contrast, k) by {
            forall j | 0 <= j < kp ensures contrast(base, colors[j]) < contrast(base, colors[kp]) {
              assert colors[j] == prefix[j];
            }
            forall j | kp < j < n ensures contrast(base, colors[j]) <= contrast(base, colors[kp]) {
              if j < n - 1 { assert colors[j] == prefix[j]; }
            }
          }
        }
      }
    }
  }

  /**
   * The chosen colour is one of the candidates, or the zero colour when none
   * has a positive contrast; with any positive contrast it is a candidate.
   */
  lemma BestContrastingIsCandidate(base: Rgba, colors: seq<Rgba>, contrast: (Rgba, Rgba) -> real)
    ensures BestContrasting(base, colors, contrast) in colors || BestContrasting(base, colors, contrast) == Transparent
    ensures (exists j :: 0 <= j < |colors| && contrast(base, colors[j]) > 0.0) ==>
      BestContrasting(base, colors, contrast) in colors
  {
    var k := ScanPicksFirstBest(base, colors, contrast);
  }

  /**
   * chooseBestContrastingColor: keeps the candidate whose contrast against
   * base is strictly greater than the best so far, so ties go to the earlier
   * candidate and the zero colour comes back when nothing beats 0.0.
   */
  method ChooseBestContrastingColor(base: Rgba, colors: seq<Rgba>, contrast: (Rgba, Rgba) -> real)
    returns (best: Rgba)
    ensures best == BestContrasting(base, colors, contrast)
    ensures NonePositive(base, colors, contrast) ==> best == Transparent
    ensures !NonePositive(base, colors, contrast) ==>
      exists k :: IsFirstBest(base, colors, contrast, k) && best == colors[k]
  {
    best := Transparent;
    var bestContrast := 0.0;
    for i := 0 to |colors|
      invariant (best, bestContrast) == Scan(base, colors[..i], contrast)
    {
      var x := contrast(base, colors[i]);
      if x > bestContrast {
        bestContrast := x;
        best := colors[i];
      }
      assert colors[..i + 1][..i] == colors[..i];
    }
    assert colors[..|colors|] == colors;
    var k := ScanPicksFirstBest(base, colors, contrast);
  }

  /**
   * provideTextColor: the better-contrasting of black and white against the
   * background, black on a tie, and the zero colour if neither contrast is
   * positive.
   */
  method ProvideTextColor(bg: Rgba, contrast: (Rgba, Rgba) -> real) returns (text: Rgba)
    ensures text == BestContrasting(bg, [Black, White], contrast)
    ensures contrast(bg, Black) > 0.0 && contrast(bg, Black) >= contrast(bg, White) ==> text == Black
    ensures contrast(bg, White) > 0.0 && contrast(bg, White) > contrast(bg, Black) ==> text == White
    ensures contrast(bg, Black) <= 0.0 && contrast(bg, White) <= 0.0 ==> text == Transparent
  {
    text := ChooseBestContrastingColor(bg, [Black, White], contrast);
    assert [Black, White][..1] == [Black];
    assert [Black][..0] == [];
    assert Scan(bg, [Black], contrast) == if contrast(bg, Black) > 0.0 then (Black, contrast(bg, Black)) else (Transparent, 0.0);
  }

  /** A hue rotation of c by the given degrees that keeps c's alpha. */
  function Harmonic(c: Rgba, degrees: int, hueRotate: (Rgba, int) -> Rgba): (h: Rgba)
    ensures h.a == c.a
  {
    hueRotate(c, degrees).(a := c.a)
  }

  /**
   * The progress-colour candidates in the order they are offered: the two
   * triadic rotations (+120, +240), the two analogous ones (+30, -30) and the
   * complementary one (+180).
   */
  function ProgressCandidates(c: Rgba, hueRotate: (Rgba, int) -> Rgba): (cs: seq<Rgba>)
    ensures |cs| == 5 && forall i :: 0 <= i < 5 ==> cs[i].a == c.a
  {
    [Harmonic(c, 120, hueRotate), Harmonic(c, 240, hueRotate),
     Harmonic(c, 30, hueRotate), Harmonic(c, -30, hueRotate),
     Harmonic(c, 180, hueRotate)]
  }
}
