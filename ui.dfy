/**
 * The big-digit clock of the timer page: the remaining seconds as hours, minutes and seconds, the
 * choice of hiding the countdown, and the rendering of a digit string as seven rows of block glyphs.
 */
module ClockText {
  import opened Constants

  /** Every glyph, and so every rendered clock, is this many rows high. */
  const GLYPH_ROWS: nat := 7

  /** Block glyphs for the digits 0 to 9 (entries 0 to 9) and the colon (entry 10), row by row. */
  const ASCII_NUMBERS: seq<seq<string>> := [
      // 0
      ["  ███  ", " █   █ ", "█     █", "█     █", "█     █", " █   █ ", "  ███  "],
      // 1
      ["   █   ", "  ██   ", " █ █   ", "   █   ", "   █   ", "   █   ", " ████  "],
      // 2
      [" ███   ", "█   █  ", "    █  ", "   █   ", "  █    ", " █     ", "█████  "],
      // 3
      [" ███   ", "█   █  ", "    █  ", "  ██   ", "    █  ", "█   █  ", " ███   "],
      // 4
      ["   ██  ", "  █ █  ", " █  █  ", "█   █  ", "█████  ", "    █  ", "    █  "],
      // 5
      ["█████  ", "█      ", "████   ", "    █  ", "    █  ", "█   █  ", " ███   "],
      // 6
      ["  ███  ", " █     ", "█      ", "█ ███  ", "█    █ ", " █   █ ", "  ███  "],
      // 7
      ["█████  ", "    █  ", "   █   ", "  █    ", " █     ", " █     ", " █     "],
      // 8
      ["  ███  ", " █   █ ", " █   █ ", "  ███  ", " █   █ ", " █   █ ", "  ███  "],
      // 9
      ["  ███  ", " █   █ ", " █   █ ", "  ████ ", "     █ ", "    ██ ", "  ███  "],
      // :
      ["        ", "   █    ", "   █    ", "        ", "   █    ", "   █    ", "        "]
    ]

  /** Columns of one glyph row: seven for a digit, eight for the colon. */
  function GlyphWidth(g: nat): nat
  {
    if g == 10 then 8 else 7
  }

  /** Every glyph has seven rows of its width, none holding a line break. */
  lemma GlyphShape(g: nat)
    requires g < |ASCII_NUMBERS|
    ensures |ASCII_NUMBERS| == 11
    ensures |ASCII_NUMBERS[g]| == GLYPH_ROWS
    ensures forall i | 0 <= i < GLYPH_ROWS ::
      |ASCII_NUMBERS[g][i]| == GlyphWidth(g) && '\n' !in ASCII_NUMBERS[g][i]
  {
  }

  /** The glyph a character selects: a digit its own, the colon entry 10, anything else none. */
  function GlyphIndex(ch: char): (g: Option<nat>)
    ensures g.Some? <==> '0' <= ch <= '9' || ch == ':'
    ensures '0' <= ch <= '9' ==> g == Some(ch as int - '0' as int)
    ensures ch == ':' ==> g == Some(10)
    ensures g.Some? ==> g.value < |ASCII_NUMBERS|
  {
    if '0' <= ch <= '9' then Some(ch as int - '0' as int)
    else if ch == ':' then Some(10)
    else None
  }

  /** Seven empty rows. */
  function EmptyRows(): seq<string>
  {
    seq(GLYPH_ROWS, _ => "")
  }

  /** The rows after one more character: its glyph row and two spaces appended to each row. */
  function AppendGlyph(rows: seq<string>, ch: char): (r: seq<string>)
    requires |rows| == GLYPH_ROWS
    ensures |r| == GLYPH_ROWS
  {
    match GlyphIndex(ch)
    case None => rows
    case Some(g) =>
      GlyphShape(g);
      seq(GLYPH_ROWS, i requires 0 <= i < GLYPH_ROWS => rows[i] + ASCII_NUMBERS[g][i] + "  ")
  }

  /** The seven rows that render a string, character by character from the left. */
  function AsciiRows(input: string): (rows: seq<string>)
    ensures |rows| == GLYPH_ROWS
    decreases |input|
  {
    if input == [] then EmptyRows()
    else AppendGlyph(AsciiRows(input[..|input| - 1]), input[|input| - 1])
  }

  /** Rows joined by a separator, as Rust's `join` does. */
  function Join(rows: seq<string>, sep: string): string
  {
    if |rows| == 0 then ""
    else if |rows| == 1 then rows[0]
    else rows[0] + sep + Join(rows[1..], sep)
  }

  /** Render a string of digits and colons as seven rows of glyphs separated by line breaks. */
  method FormatAsciiTime(input: string) returns (text: string)
    ensures text == Join(AsciiRows(input), "\n")
  {
    var output := new string[GLYPH_ROWS](_ => "");
    for k := 0 to |input|
      invariant output[..] == AsciiRows(input[..k])
    {
      var ch := input[k];
      var index := GlyphIndex(ch);
      assert input[..k + 1][..k] == input[..k];
      if index.Some? {
        GlyphShape(index.value);
        var asciiLines := ASCII_NUMBERS[index.value];
        ghost var before := output[..];
        for i := 0 to |asciiLines|
          invariant forall j | 0 <= j < i :: output[j] == before[j] + asciiLines[j] + "  "
          invariant forall j | i <= j < GLYPH_ROWS :: output[j] == before[j]
        {
          output[i] := output[i] + asciiLines[i];
          output[i] := output[i] + "  ";
        }
      }
    }
    assert input[..|input|] == input;
    text := Join(output[..], "\n");
  }

  // ---------------------------------------------------------------------------------------------
  // Properties of the glyph rendering

  /** Number of occurrences of a character. */
  function Count(s: string, c: char): nat
  {
    if s == [] then 0 else Count(s[1..], c) + if s[0] == c then 1 else 0
  }

  /** The text split at every line break, as Rust's `split('\n')`. */
  function SplitLines(s: string): (rows: seq<string>)
    ensures |rows| >= 1
  {
    if s == [] then [""]
    else
      var rest := SplitLines(s[1..]);
      if s[0] == '\n' then [""] + rest else [[s[0]] + rest[0]] + rest[1..]
  }

  /** The columns a string takes per row: each recognised character its glyph width and two spaces. */
  function TextWidth(input: string): nat
    decreases |input|
  {
    if input == [] then 0
    else
      TextWidth(input[..|input| - 1]) +
      match GlyphIndex(input[|input| - 1])
      case None => 0
      case Some(g) => GlyphWidth(g) + 2
  }

  lemma {:induction false} CountConcat(a: string, b: string, c: char)
    ensures Count(a + b, c) == Count(a, c) + Count(b, c)
    decreases |a|
  {
    if a == [] {
      assert a + b == b;
    } else {
      assert (a + b)[1..] == a[1..] + b;
      CountConcat(a[1..], b, c);
    }
  }

  lemma {:induction false} CountAbsent(s: string, c: char)
    requires c !in s
    ensures Count(s, c) == 0
    decreases |s|
  {
    if s != [] {
      CountAbsent(s[1..], c);
    }
  }

  /** No rendered row holds a line break. */
  lemma {:induction false} RowsHaveNoLineBreak(input: string)
    ensures forall i | 0 <= i < GLYPH_ROWS :: '\n' !in AsciiRows(input)[i]
    decreases |input|
  {
    if input != [] {
      var prefix := input[..|input| - 1];
      RowsHaveNoLineBreak(prefix);
      var g := GlyphIndex(input[|input| - 1]);
      if g.Some? {
        GlyphShape(g.value);
      }
    }
  }

  /** Joining rows with no line break in them yields one line break fewer than there are rows. */
  lemma {:induction false} JoinCountsBreaks(rows: seq<string>)
    requires |rows| >= 1
    requires forall i | 0 <= i < |rows| :: '\n' !in rows[i]
    ensures Count(Join(rows, "\n"), '\n') == |rows| - 1
    decreases |rows|
  {
    if |rows| == 1 {
      CountAbsent(rows[0], '\n');
    } else {
      JoinCountsBreaks(rows[1..]);
      CountAbsent(rows[0], '\n');
      CountConcat(rows[0], "\n", '\n');
      CountConcat(rows[0] + "\n", Join(rows[1..], "\n"), '\n');
    }
  }

  lemma {:induction false} SplitLineThenRest(r: string, t: string)
    requires '\n' !in r
    ensures SplitLines(r + "\n" + t) == [r] + SplitLines(t)
    decreases |r|
  {
    if r == [] {
      assert ("" + "\n" + t)[1..] == t;
    } else {
      assert (r + "\n" + t)[1..] == r[1..] + "\n" + t;
      SplitLineThenRest(r[1..], t);
      assert [r[0]] + r[1..] == r;
    }
  }

  lemma {:induction false} SplitSingleLine(r: string)
    requires '\n' !in r
    ensures SplitLines(r) == [r]
    decreases |r|
  {
    if r != [] {
      SplitSingleLine(r[1..]);
      assert [r[0]] + r[1..] == r;
    }
  }

  /** Splitting at line breaks recovers rows that hold none: `SplitLines` inverts `Join`. */
  lemma {:induction false} SplitInvertsJoin(rows: seq<string>)
    requires |rows| >= 1
    requires forall i | 0 <= i < |rows| :: '\n' !in rows[i]
    ensures SplitLines(Join(rows, "\n")) == rows
    decreases |rows|
  {
    if |rows| == 1 {
      SplitSingleLine(rows[0]);
    } else {
      SplitInvertsJoin(rows[1..]);
      SplitLineThenRest(rows[0], Join(rows[1..], "\n"));
      assert [rows[0]] + rows[1..] == rows;
    }
  }

  /**
   * The rendered text is exactly seven lines: it holds six line breaks, and splitting it at line
   * breaks gives back the seven rows.
   */
  lemma RenderedTextHasSevenLines(input: string)
    ensures Count(Join(AsciiRows(input), "\n"), '\n') == GLYPH_ROWS - 1
    ensures SplitLines(Join(AsciiRows(input), "\n")) == AsciiRows(input)
  {
    RowsHaveNoLineBreak(input);
    JoinCountsBreaks(AsciiRows(input));
    SplitInvertsJoin(AsciiRows(input));
  }

  /**
   * Rendering distributes over concatenation: row `i` of `a + b` is row `i` of `a` followed by row
   * `i` of `b`.
   */
  lemma {:induction false} RowsOfConcat(a: string, b: string, i: nat)
    requires i < GLYPH_ROWS
    ensures AsciiRows(a + b)[i] == AsciiRows(a)[i] + AsciiRows(b)[i]
    decreases |b|
  {
    if b == [] {
      assert a + b == a;
      assert AsciiRows(b)[i] == "";
    } else {
      var b' := b[..|b| - 1];
      var c := b[|b| - 1];
      assert b == b' + [c];
      assert a + b == (a + b') + [c];
      RowsOfConcat(a, b', i);
      RowsOfSnoc(a + b', c);
      RowsOfSnoc(b', c);
      AppendedRow(AsciiRows(a + b'), c, i);
      AppendedRow(AsciiRows(b'), c, i);
    }
  }

  /** The rows of a string with one more character at the end. */
  lemma RowsOfSnoc(s: string, c: char)
    ensures AsciiRows(s + [c]) == AppendGlyph(AsciiRows(s), c)
  {
    assert (s + [c])[..|s + [c]| - 1] == s;
  }

  /** Appending a character extends row `i` by that character's own rendering of row `i`. */
  lemma AppendedRow(rows: seq<string>, ch: char, i: nat)
    requires |rows| == GLYPH_ROWS && i < GLYPH_ROWS
    ensures AppendGlyph(rows, ch)[i] == rows[i] + AsciiRows([ch])[i]
  {
    SingleCharacterRows(ch, i);
    if GlyphIndex(ch).Some? {
      GlyphShape(GlyphIndex(ch).value);
    }
  }

  /** The empty string renders as seven empty rows. */
  lemma EmptyInputRendersEmptyRows()
    ensures AsciiRows("") == EmptyRows()
    ensures forall i | 0 <= i < GLYPH_ROWS :: AsciiRows("")[i] == ""
  {
  }

  /**
   * A single character renders as row `i` of its glyph followed by two spaces; a character that is
   * neither a digit nor a colon renders as nothing.
   */
  lemma SingleCharacterRows(ch: char, i: nat)
    requires i < GLYPH_ROWS
    ensures GlyphIndex(ch).Some? ==> AsciiRows([ch])[i] == ASCII_NUMBERS[GlyphIndex(ch).value][i] + "  "
    ensures GlyphIndex(ch).None? ==> AsciiRows([ch])[i] == ""
  {
    assert [ch][..0] == [];
  }

  /** Characters without a glyph contribute nothing wherever they stand. */
  lemma SkippedCharacterIsInvisible(a: string, ch: char, b: string)
    requires GlyphIndex(ch).None?
    ensures AsciiRows(a + [ch] + b) == AsciiRows(a + b)
  {
    forall i | 0 <= i < GLYPH_ROWS
      ensures AsciiRows(a + [ch] + b)[i] == AsciiRows(a + b)[i]
    {
      RowsOfConcat(a + [ch], b, i);
      RowsOfConcat(a, [ch], i);
      RowsOfConcat(a, b, i);
      SingleCharacterRows(ch, i);
    }
  }

  /** The rendering is a rectangle: every row is as wide as the string's glyph widths add up to. */
  lemma {:induction false} RowsAreRectangular(input: string, i: nat)
    requires i < GLYPH_ROWS
    ensures |AsciiRows(input)[i]| == TextWidth(input)
    decreases |input|
  {
    if input != [] {
      RowsAreRectangular(input[..|input| - 1], i);
      match GlyphIndex(input[|input| - 1]) {
        case None =>
        case Some(g) =>
          GlyphShape(g);
      }
    }
  }

  // ---------------------------------------------------------------------------------------------
  // Hours, minutes and seconds

  /**
   * Rust's integer division, which truncates toward zero: the quotient leaves a remainder with the
   * sign of the dividend that is smaller than the divisor.
   */
  function TruncDiv(a: int, b: int): (q: int)
    requires b > 0
    ensures a >= 0 ==> 0 <= a - q * b < b
    ensures a < 0 ==> -b < a - q * b <= 0
  {
    if a >= 0 then a / b else -((-a) / b)
  }

  /** Rust's remainder, which takes the sign of the dividend. */
  function TruncRem(a: int, b: int): (r: int)
    requires b > 0
    ensures TruncDiv(a, b) * b + r == a
    ensures a >= 0 ==> 0 <= r < b
    ensures a < 0 ==> -b < r <= 0
  {
    a - b * TruncDiv(a, b)
  }

  /** Decimal digit character of a value below ten. */
  function DigitChar(d: nat): char
    requires d < 10
  {
    ('0' as int + d) as char
  }

  /** Decimal digits of a natural number, most significant first, no leading zeros. */
  function Decimal(n: nat): (s: string)
    ensures |s| >= 1
    decreases n
  {
    if n < 10 then [DigitChar(n)] else Decimal(n / 10) + [DigitChar(n % 10)]
  }

  /** The value of a string of decimal digits. */
  function DecimalValue(s: string): int
    decreases |s|
  {
    if s == [] then 0 else DecimalValue(s[..|s| - 1]) * 10 + (s[|s| - 1] as int - '0' as int)
  }

  /** `{:02}`: at least two characters, zero-padded after the sign. */
  function Pad2(n: int): (s: string)
    ensures |s| >= 2
  {
    if n < 0 then "-" + Decimal(-n)
    else if n < 10 then "0" + Decimal(n)
    else Decimal(n)
  }

  /** Hours, minutes within the hour, seconds within the minute. */
  function Hours(time: int): int { TruncDiv(time, 3600) }
  function Minutes(time: int): int { TruncDiv(TruncRem(time, 3600), 60) }
  function Seconds(time: int): int { TruncRem(time, 60) }

  /** The clock string `hh:mm:ss` of a number of seconds. */
  function HmsString(time: int): (text: string)
    ensures |text| >= 8
  {
    Pad2(Hours(time)) + ":" + Pad2(Minutes(time)) + ":" + Pad2(Seconds(time))
  }

  /** The clock string shown: all zeros while running with the countdown hidden, the time otherwise. */
  function ClockString(time: int, hideWorkCountdown: bool, running: bool): (text: string)
  {
    match hideWorkCountdown
    case true => if running then "00:00:00" else HmsString(time)
    case false => HmsString(time)
  }

  /** The big-digit clock text for the timer page. */
  method RenderClock(time: int, hideWorkCountdown: bool, running: bool) returns (text: string)
    ensures text == Join(AsciiRows(ClockString(time, hideWorkCountdown, running)), "\n")
  {
    var clock := ClockString(time, hideWorkCountdown, running);
    text := FormatAsciiTime(clock);
  }

  /** A non-negative time splits into hours, minutes below 60 and seconds below 60 that add back up. */
  lemma HmsDecomposition(time: int)
    requires time >= 0
    ensures Hours(time) * 3600 + Minutes(time) * 60 + Seconds(time) == time
    ensures 0 <= Minutes(time) < 60 && 0 <= Seconds(time) < 60 && Hours(time) >= 0
  {
    var h, r := time / 3600, time % 3600;
    var m, sec := r / 60, r % 60;
    TruncOfNonNegative(time, 3600);
    TruncOfNonNegative(r, 60);
    TruncOfNonNegative(time, 60);
    assert time == 60 * (60 * h + m) + sec;
    RemainderOfMultiple(60 * h + m, sec);
  }

  /** On a non-negative dividend, truncating and Euclidean division agree. */
  lemma TruncOfNonNegative(a: int, b: int)
    requires a >= 0 && b > 0
    ensures TruncDiv(a, b) == a / b && TruncRem(a, b) == a % b
  {
  }

  /** Adding a multiple of 60 does not change the remainder modulo 60. */
  lemma RemainderOfMultiple(k: int, sec: int)
    requires 0 <= sec < 60
    ensures (60 * k + sec) % 60 == sec
  {
  }

  lemma {:induction false} DecimalRoundTrip(n: nat)
    ensures DecimalValue(Decimal(n)) == n
    ensures forall j | 0 <= j < |Decimal(n)| :: '0' <= Decimal(n)[j] <= '9'
    decreases n
  {
    if n >= 10 {
      DecimalRoundTrip(n / 10);
      var s := Decimal(n / 10) + [DigitChar(n % 10)];
      assert s[..|s| - 1] == Decimal(n / 10);
    }
  }

  /** Two-digit padding of a value below 100 is two digits that read back as the value. */
  lemma Pad2RoundTrip(n: int)
    requires 0 <= n < 100
    ensures |Pad2(n)| == 2
    ensures forall j | 0 <= j < 2 :: '0' <= Pad2(n)[j] <= '9'
    ensures DecimalValue(Pad2(n)) == n
  {
    DecimalRoundTrip(n);
    if n < 10 {
      var s := "0" + Decimal(n);
      assert s[..1] == "0";
      assert DecimalValue("0") == 0;
    } else {
      assert Decimal(n / 10) == [DigitChar(n / 10)];
    }
  }

  /**
   * Below 100 hours the clock string is `hh:mm:ss` with two digits per field, and reading the
   * fields back gives the time: the string loses nothing.
   */
  lemma HmsStringReadsBack(time: int)
    requires 0 <= time < 100 * 3600
    ensures var text := HmsString(time);
      |text| == 8 && text[2] == ':' && text[5] == ':' &&
      DecimalValue(text[0..2]) * 3600 + DecimalValue(text[3..5]) * 60 + DecimalValue(text[6..8]) == time
  {
    HmsDecomposition(time);
    Pad2RoundTrip(Hours(time));
    Pad2RoundTrip(Minutes(time));
    Pad2RoundTrip(Seconds(time));
    var text := HmsString(time);
    assert text[0..2] == Pad2(Hours(time));
    assert text[3..5] == Pad2(Minutes(time));
    assert text[6..8] == Pad2(Seconds(time));
  }

  /** The end-of-phase sentinel -1 shows as `00:00:-1`, because the division truncates. */
  lemma SentinelClockString()
    ensures HmsString(-1) == "00:00:-1"
  {
    assert Pad2(0) == "00";
    assert Pad2(-1) == "-1";
  }

  /** A zero countdown shows as `00:00:00`. */
  lemma ZeroClockString()
    ensures HmsString(0) == "00:00:00"
  {
    HmsOfZero();
    assert Pad2(0) == "00";
    ZerosJoin(Pad2(0));
  }

  /** The three fields of the clock string of 0 are each the padding of 0. */
  lemma HmsOfZero()
    ensures HmsString(0) == Pad2(0) + ":" + Pad2(0) + ":" + Pad2(0)
  {
    assert Hours(0) == 0 && Minutes(0) == 0 && Seconds(0) == 0;
  }

  /** Three zero fields joined by colons. */
  lemma ZerosJoin(z: string)
    requires z == "00"
    ensures z + ":" + z + ":" + z == "00:00:00"
  {
  }

  /**
   * With the countdown hidden a running clock shows what a zero countdown shows, whatever the time;
   * otherwise the clock shows the time.
   */
  lemma ClockStringChoice(time: int, hideWorkCountdown: bool, running: bool)
    ensures hideWorkCountdown && running ==> ClockString(time, hideWorkCountdown, running) == HmsString(0)
    ensures !(hideWorkCountdown && running) ==> ClockString(time, hideWorkCountdown, running) == HmsString(time)
  {
    ZeroClockString();
  }
}
