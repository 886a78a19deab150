/**
 * Decimal rendering of non-negative integers (strconv.Itoa and the %d and %02d
 * verbs of fmt), strings.Join and strings.Split on one separator character,
 * and the parsers that undo them.
 */
module Text {
  import opened Options

  predicate IsDigit(ch: char) {
    '0' <= ch <= '9'
  }

  predicate AllDigits(s: string) {
    forall i :: 0 <= i < |s| ==> IsDigit(s[i])
  }

  function DigitChar(d: nat): (ch: char)
    requires d < 10
    ensures IsDigit(ch) && ch as int - '0' as int == d
  {
    (d + '0' as int) as char
  }

  function DigitValue(ch: char): (d: nat)
    requires IsDigit(ch)
    ensures d < 10 && DigitChar(d) == ch
  {
    ch as int - '0' as int
  }

  /** The decimal text of n: no sign, and no leading zero unless n is 0. */
  function Decimal(n: nat): (s: string)
    ensures |s| >= 1 && AllDigits(s)
    ensures s[0] == '0' ==> n == 0
    ensures |s| == 1 <==> n < 10
    decreases n
  {
    if n < 10 then [DigitChar(n)] else Decimal(n / 10) + [DigitChar(n % 10)]
  }

  /** The value of a string of decimal digits (the empty string reads as 0). */
  function ParseDecimal(s: string): nat
    requires AllDigits(s)
    decreases |s|
  {
    if s == [] then 0 else 10 * ParseDecimal(s[..|s| - 1]) + DigitValue(s[|s| - 1])
  }

  lemma {:induction false} ParseDecimalOfDecimal(n: nat)
    ensures ParseDecimal(Decimal(n)) == n
    decreases n
  {
    var s := Decimal(n);
    if n < 10 {
      assert s[..|s| - 1] == [];
    } else {
      assert s[..|s| - 1] == Decimal(n / 10);
      ParseDecimalOfDecimal(n / 10);
    }
  }

  /** The %02d verb: the decimal text, left-padded with '0' to two characters. */
  function ZeroPad2(n: nat): (s: string)
    ensures |s| >= 2 && AllDigits(s)
    ensures n < 100 ==> |s| == 2
  {
    if n < 10 then ['0'] + Decimal(n) else Decimal(n)
  }

  lemma ParseZeroPad2(n: nat)
    ensures ParseDecimal(ZeroPad2(n)) == n
  {
    var s := ZeroPad2(n);
    if n < 10 {
      assert s == ['0', DigitChar(n)];
      assert s[..1] == ['0'] && s[..1][..0] == [];
      assert ParseDecimal(['0']) == 0;
    } else {
      ParseDecimalOfDecimal(n);
    }
  }

  /** strings.Join: the fields with one separator between neighbours. */
  function Join(fields: seq<string>, sep: char): string
    decreases |fields|
  {
    if |fields| == 0 then ""
    else if |fields| == 1 then fields[0]
    else fields[0] + [sep] + Join(fields[1..], sep)
  }

  /** strings.Split on a one-character separator: always at least one part. */
  function Split(s: string, sep: char): (parts: seq<string>)
    ensures |parts| >= 1
    decreases |s|
  {
    if s == [] then [""]
    else
      var rest := Split(s[1..], sep);
      if s[0] == sep then [""] + rest else [[s[0]] + rest[0]] + rest[1..]
  }

  /** How often ch occurs in s. */
  function Count(s: string, ch: char): nat
    decreases |s|
  {
    if s == [] then 0 else (if s[0] == ch then 1 else 0) + Count(s[1..], ch)
  }

  lemma {:induction false} SplitWithoutSeparator(a: string, sep: char)
    requires sep !in a
    ensures Split(a, sep) == [a]
    decreases |a|
  {
    if a != [] {
      SplitWithoutSeparator(a[1..], sep);
      assert [a[0]] + a[1..] == a;
    }
  }

  lemma {:induction false} SplitAtSeparator(a: string, b: string, sep: char)
    requires sep !in a
    ensures Split(a + [sep] + b, sep) == [a] + Split(b, sep)
    decreases |a|
  {
    var s := a + [sep] + b;
    if a == [] {
      assert s[1..] == b;
    } else {
      assert s[1..] == a[1..] + [sep] + b;
      SplitAtSeparator(a[1..], b, sep);
      assert [a[0]] + a[1..] == a;
    }
  }

  lemma {:induction false} CountAppend(a: string, b: string, ch: char)
    ensures Count(a + b, ch) == Count(a, ch) + Count(b, ch)
    decreases |a|
  {
    if a != [] {
      assert (a + b)[1..] == a[1..] + b;
      CountAppend(a[1..], b, ch);
    } else {
      assert a + b == b;
    }
  }

  lemma {:induction false} CountAbsent(a: string, ch: char)
    requires ch !in a
    ensures Count(a, ch) == 0
    decreases |a|
  {
    if a != [] {
      CountAbsent(a[1..], ch);
    }
  }

  /** Splitting a join gives the fields back when none of them holds the separator. */
  lemma {:induction false} SplitJoin(fields: seq<string>, sep: char)
    requires |fields| >= 1
    requires forall i :: 0 <= i < |fields| ==> sep !in fields[i]
    ensures Split(Join(fields, sep), sep) == fields
    ensures Count(Join(fields, sep), sep) == |fields| - 1
    decreases |fields|
  {
    if |fields| == 1 {
      SplitWithoutSeparator(fields[0], sep);
      CountAbsent(fields[0], sep);
    } else {
      var rest := Join(fields[1..], sep);
      SplitJoin(fields[1..], sep);
      SplitAtSeparator(fields[0], rest, sep);
      assert [fields[0]] + fields[1..] == fields;
      CountAbsent(fields[0], sep);
      CountAppend(fields[0] + [sep], rest, sep);
      CountAppend(fields[0], [sep], sep);
    }
  }

  /** The decimal text of every number, in order. */
  function DecimalFields(ns: seq<nat>): seq<string>
    decreases |ns|
  {
    if ns == [] then [] else [Decimal(ns[0])] + DecimalFields(ns[1..])
  }

  lemma {:induction false} DecimalFieldsAt(ns: seq<nat>, i: nat)
    requires i < |ns|
    ensures |DecimalFields(ns)| == |ns| && DecimalFields(ns)[i] == Decimal(ns[i])
    decreases |ns|
  {
    if i > 0 {
      DecimalFieldsAt(ns[1..], i - 1);
    } else if |ns| > 1 {
      DecimalFieldsAt(ns[1..], 0);
    }
  }

  /** Reads a list of non-empty digit strings; None if any part is not one. */
  function ParseFields(parts: seq<string>): Option<seq<nat>>
    decreases |parts|
  {
    if parts == [] then Some([])
    else if parts[0] == "" || !AllDigits(parts[0]) then None
    else match ParseFields(parts[1..])
      case None => None
      case Some(rest) => Some([ParseDecimal(parts[0])] + rest)
  }

  lemma {:induction false} ParseDecimalFields(ns: seq<nat>)
    ensures ParseFields(DecimalFields(ns)) == Some(ns)
    decreases |ns|
  {
    if ns != [] {
      ParseDecimalOfDecimal(ns[0]);
      ParseDecimalFields(ns[1..]);
      assert [ns[0]] + ns[1..] == ns;
    }
  }

  /** The numbers as decimal text joined with commas (strings.Join(strs, ",")). */
  function CommaJoined(ns: seq<nat>): string {
    Join(DecimalFields(ns), ',')
  }

  /** Reads back a comma-joined list of decimals. */
  function ParseCommaJoined(s: string): Option<seq<nat>> {
    ParseFields(Split(s, ','))
  }

  /**
   * A comma-joined list of n >= 1 numbers has exactly n decimal fields and
   * n - 1 commas, and reading it back gives the numbers.
   */
  lemma CommaJoinedRoundTrip(ns: seq<nat>)
    requires |ns| >= 1
    ensures ParseCommaJoined(CommaJoined(ns)) == Some(ns)
    ensures |Split(CommaJoined(ns), ',')| == |ns|
    ensures Count(CommaJoined(ns), ',') == |ns| - 1
  {
    var fs := DecimalFields(ns);
    DecimalFieldsAt(ns, 0);
    forall i | 0 <= i < |fs| ensures ',' !in fs[i] {
      DecimalFieldsAt(ns, i);
    }
    SplitJoin(fs, ',');
    ParseDecimalFields(ns);
  }
}
