/**
 * The few java.lang.String operations the phonebook code relies on, with the
 * exact edge cases of the Java library: `split` drops trailing empty strings
 * (but splitting "" yields [""]), `startsWith`/`endsWith` accept the empty
 * prefix, `Long.toString` writes a leading '-' for negative values.
 * The platform line separator is fixed to "\n".
 */
module JavaText {

  const NEWLINE: char := '\n'

  /** `s.startsWith(p)` */
  predicate StartsWith(s: string, p: string) {
    |p| <= |s| && s[..|p|] == p
  }

  /** `s.endsWith(p)` */
  predicate EndsWith(s: string, p: string) {
    |p| <= |s| && s[|s| - |p|..] == p
  }

  /** The pieces of `s` between the occurrences of `sep`, empty pieces included. */
  function Pieces(s: string, sep: char): (r: seq<string>)
    ensures |r| >= 1
    ensures forall i :: 0 <= i < |r| ==> sep !in r[i]
    decreases |s|
  {
    if s == [] then [[]]
    else
      var rest := Pieces(s[1..], sep);
      if s[0] == sep then [[]] + rest
      else [[s[0]] + rest[0]] + rest[1..]
  }

  /** Removes the empty strings at the end of `xs`, as `String.split` does. */
  function DropTrailingEmpty(xs: seq<string>): (r: seq<string>)
    ensures |r| <= |xs| && r == xs[..|r|]
    ensures r == [] || r[|r| - 1] != []
    ensures forall i :: |r| <= i < |xs| ==> xs[i] == []
  {
    if xs == [] then []
    else if xs[|xs| - 1] == [] then DropTrailingEmpty(xs[..|xs| - 1])
    else xs
  }

  /** The pieces with one separator between neighbours, as `String.join` writes them. */
  function JoinWith(xs: seq<string>, sep: char): string
  {
    if xs == [] then []
    else if |xs| == 1 then xs[0]
    else xs[0] + [sep] + JoinWith(xs[1..], sep)
  }

  lemma {:induction false} JoinWithSnoc(xs: seq<string>, x: string, sep: char)
    requires xs != []
    ensures JoinWith(xs + [x], sep) == JoinWith(xs, sep) + [sep] + x
  {
    if |xs| == 1 {
      assert (xs + [x])[1..] == [x];
    } else {
      JoinWithSnoc(xs[1..], x, sep);
      assert (xs + [x])[1..] == xs[1..] + [x];
    }
  }

  /** Joining the pieces again gives back the text they were cut from. */
  lemma {:induction false} JoinPieces(s: string, sep: char)
    ensures JoinWith(Pieces(s, sep), sep) == s
    decreases |s|
  {
    if s != [] {
      var rest := Pieces(s[1..], sep);
      JoinPieces(s[1..], sep);
      assert [s[0]] + s[1..] == s;
      if s[0] == sep {
        assert ([[]] + rest)[1..] == rest;
      } else if |rest| > 1 {
        assert ([[s[0]] + rest[0]] + rest[1..])[1..] == rest[1..];
      }
    }
  }

  /** Dropping trailing empty pieces drops only separators from the end of the join. */
  lemma {:induction false} DropTrailingJoin(xs: seq<string>, sep: char)
    requires xs != []
    ensures var j := JoinWith(DropTrailingEmpty(xs), sep);
      && StartsWith(JoinWith(xs, sep), j)
      && forall i :: |j| <= i < |JoinWith(xs, sep)| ==> JoinWith(xs, sep)[i] == sep
    decreases |xs|
  {
    if xs[|xs| - 1] == [] {
      var ys := xs[..|xs| - 1];
      if ys == [] {
        assert DropTrailingEmpty(xs) == DropTrailingEmpty(ys) == [];
      } else {
        assert xs == ys + [[]];
        JoinWithSnoc(ys, [], sep);
        DropTrailingJoin(ys, sep);
      }
    }
  }

  /**
   * `s.split(sep)` for a one-character, non-meta separator: "" gives [""],
   * otherwise no piece holds the separator, trailing empty pieces are dropped,
   * and a string without the separator is its only piece. Joined with the
   * separator, the pieces give `s` back up to the separators dropped from its end.
   */
  function Split(s: string, sep: char): (r: seq<string>)
    ensures s == [] ==> r == [[]]
    ensures forall i :: 0 <= i < |r| ==> sep !in r[i]
    ensures s != [] && r != [] ==> r[|r| - 1] != []
    ensures s != [] && sep !in s ==> r == [s]
    ensures StartsWith(s, JoinWith(r, sep))
    ensures forall i :: |JoinWith(r, sep)| <= i < |s| ==> s[i] == sep
  {
    if s == [] then [[]]
    else
      PiecesWithoutSep(s, sep);
      JoinPieces(s, sep);
      DropTrailingJoin(Pieces(s, sep), sep);
      DropTrailingEmpty(Pieces(s, sep))
  }

  /** A string without the separator is one piece. */
  lemma {:induction false} PiecesWithoutSep(s: string, sep: char)
    ensures sep !in s ==> Pieces(s, sep) == [s]
    decreases |s|
  {
    if s != [] && sep !in s {
      PiecesWithoutSep(s[1..], sep);
      assert sep !in s[1..];
      assert [s[0]] + s[1..] == s;
    }
  }

  /** Every line followed by `sep`: what a loop of `append(line + SEPARATOR)` builds. */
  function JoinTerminated(lines: seq<string>, sep: char): (r: string)
  {
    if lines == [] then [] else lines[0] + [sep] + JoinTerminated(lines[1..], sep)
  }

  lemma {:induction false} JoinTerminatedAppend(lines: seq<string>, line: string, sep: char)
    ensures JoinTerminated(lines + [line], sep) == JoinTerminated(lines, sep) + line + [sep]
  {
    if lines != [] {
      JoinTerminatedAppend(lines[1..], line, sep);
      assert (lines + [line])[1..] == lines[1..] + [line];
    }
  }

  lemma {:induction false} PiecesAfterLine(a: string, rest: string, sep: char)
    requires sep !in a
    ensures Pieces(a + [sep] + rest, sep) == [a] + Pieces(rest, sep)
    decreases |a|
  {
    if a == [] {
      assert a + [sep] + rest == [sep] + rest;
      assert ([sep] + rest)[1..] == rest;
    } else {
      PiecesAfterLine(a[1..], rest, sep);
      assert (a + [sep] + rest)[1..] == a[1..] + [sep] + rest;
      assert [a[0]] + a[1..] == a;
    }
  }

  /** Splitting a terminated join gives the lines back, plus the empty tail piece. */
  lemma {:induction false} PiecesOfJoin(lines: seq<string>, sep: char)
    requires forall i :: 0 <= i < |lines| ==> sep !in lines[i]
    ensures Pieces(JoinTerminated(lines, sep), sep) == lines + [[]]
  {
    if lines != [] {
      PiecesOfJoin(lines[1..], sep);
      PiecesAfterLine(lines[0], JoinTerminated(lines[1..], sep), sep);
      assert [lines[0]] + lines[1..] == lines;
    }
  }

  /** `split` inverts a terminated join of non-empty, separator-free lines. */
  lemma SplitJoinRoundTrip(lines: seq<string>, sep: char)
    requires lines != []
    requires forall i :: 0 <= i < |lines| ==> lines[i] != [] && sep !in lines[i]
    ensures Split(JoinTerminated(lines, sep), sep) == lines
  {
    PiecesOfJoin(lines, sep);
    var p := lines + [[]];
    assert p[..|p| - 1] == lines;
  }

  predicate IsDigit(c: char) {
    '0' <= c <= '9'
  }

  /** The characters of `s` that are '0'..'9', in order. */
  function Digits(s: string): (r: string)
    ensures |r| <= |s|
    ensures forall i :: 0 <= i < |r| ==> IsDigit(r[i])
  {
    if s == [] then []
    else Digits(s[..|s| - 1]) + (if IsDigit(s[|s| - 1]) then [s[|s| - 1]] else [])
  }

  /** `s.replace(String.valueOf(c), "")`: every occurrence of `c` removed. */
  function RemoveChar(s: string, c: char): (r: string)
    ensures c !in r
    ensures |r| <= |s|
  {
    if s == [] then []
    else (if s[0] == c then [] else [s[0]]) + RemoveChar(s[1..], c)
  }

  lemma {:induction false} RemoveCharKeepsPrefix(s: string, p: string, c: char)
    requires StartsWith(s, p) && c !in p
    ensures StartsWith(RemoveChar(s, c), p)
    decreases |s|
  {
    if p != [] {
      RemoveCharKeepsPrefix(s[1..], p[1..], c);
    }
  }

  lemma {:induction false} RemoveCharKeepsAbsent(s: string, c: char, d: char)
    requires d !in s
    ensures d !in RemoveChar(s, c)
    decreases |s|
  {
    if s != [] {
      RemoveCharKeepsAbsent(s[1..], c, d);
    }
  }

  /** `Character.isWhitespace`: the separators and controls Java counts as white space. */
  predicate IsJavaWhitespace(c: char) {
    c == ' ' || c == '\t' || c == '\n' || c == '\U{000B}' || c == '\U{000C}' || c == '\r'
    || ('\U{001C}' <= c <= '\U{001F}')
    || c == '\U{1680}' || ('\U{2000}' <= c <= '\U{2006}') || ('\U{2008}' <= c <= '\U{200A}')
    || c == '\U{2028}' || c == '\U{2029}' || c == '\U{205F}' || c == '\U{3000}'
  }

  function DigitChar(d: nat): (c: char)
    requires d < 10
    ensures IsDigit(c)
  {
    "0123456789"[d]
  }

  function DigitValue(c: char): nat
    requires IsDigit(c)
  {
    (c as int) - ('0' as int)
  }

  /** Decimal digits of a natural number, most significant first. */
  function NatToDecimal(n: nat): (r: string)
    ensures r != []
    ensures forall i :: 0 <= i < |r| ==> IsDigit(r[i])
  {
    if n < 10 then [DigitChar(n)] else NatToDecimal(n / 10) + [DigitChar(n % 10)]
  }

  /** `Long.toString(n)` (for values in the range of a Java long). */
  function LongToString(n: int): (r: string)
    ensures IsLongText(r)
    ensures r[0] == '-' <==> n < 0
    ensures ',' !in r && NEWLINE !in r
  {
    if n < 0 then "-" + NatToDecimal(-n) else NatToDecimal(n)
  }

  /** The value of a string of decimal digits. */
  function DecimalValue(s: string): nat
    requires forall i :: 0 <= i < |s| ==> IsDigit(s[i])
  {
    if s == [] then 0 else DecimalValue(s[..|s| - 1]) * 10 + DigitValue(s[|s| - 1])
  }

  /** Reading the decimal text back gives the number. */
  lemma {:induction false} DecimalRoundTrip(n: nat)
    ensures DecimalValue(NatToDecimal(n)) == n
  {
    var r := NatToDecimal(n);
    if n >= 10 {
      DecimalRoundTrip(n / 10);
      assert r[..|r| - 1] == NatToDecimal(n / 10);
    }
  }
  /** What `Long.toString` writes: an optional '-' before digits. */
  predicate IsLongText(s: string) {
    s != [] && (s[0] == '-' || IsDigit(s[0])) && forall i :: 0 < i < |s| ==> IsDigit(s[i])
  }

  /** `Long.parseLong` on what `Long.toString` writes. */
  function LongValue(s: string): int
    requires IsLongText(s)
  {
    if s[0] == '-' then -(DecimalValue(s[1..]) as int) else DecimalValue(s)
  }

  /** A number written by `Long.toString` reads back as itself, sign included. */
  lemma LongRoundTrip(n: int)
    ensures LongValue(LongToString(n)) == n
  {
    if n < 0 {
      var m: nat := -n;
      var digits := NatToDecimal(m);
      assert LongToString(n) == "-" + digits;
      DecimalRoundTrip(m);
      NegativeValue(digits);
    } else {
      DecimalRoundTrip(n);
      PositiveValue(NatToDecimal(n));
    }
  }

  lemma PositiveValue(digits: string)
    requires digits != [] && forall i :: 0 <= i < |digits| ==> IsDigit(digits[i])
    ensures LongValue(digits) == DecimalValue(digits)
  {
  }

  lemma NegativeValue(digits: string)
    requires digits != [] && forall i :: 0 <= i < |digits| ==> IsDigit(digits[i])
    ensures LongValue("-" + digits) == -(DecimalValue(digits) as int)
  {
    assert ("-" + digits)[1..] == digits;
  }


}
