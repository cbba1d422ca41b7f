/**
 * String helpers with the meaning of the .NET library calls the program relies on:
 * string.IsNullOrWhiteSpace, an ordinal case-insensitive comparison, string.Split with
 * RemoveEmptyEntries, and Int32.ToString / Int32.TryParse for the port number.
 * A null string is represented by the empty string: every check the program makes on
 * strings treats the two alike.
 */
module Text {
  import opened Wrappers

  const NewLine := "\r\n"   // Environment.NewLine on Windows, used by StringBuilder.AppendLine
  const MinInt32 := -0x8000_0000
  const MaxInt32 := 0x7FFF_FFFF

  /** char.IsWhiteSpace: the Unicode space, line and paragraph separators plus U+0009..U+000D, U+0085 and U+00A0. */
  predicate IsWhiteSpace(c: char)
  {
    || ('\t' <= c <= '\r') || c == ' ' || c == '\U{85}' || c == '\U{A0}' || c == '\U{1680}'
    || ('\U{2000}' <= c <= '\U{200A}') || c == '\U{2028}' || c == '\U{2029}' || c == '\U{202F}'
    || c == '\U{205F}' || c == '\U{3000}'
  }

  /** string.IsNullOrWhiteSpace. */
  predicate IsNullOrWhiteSpace(s: string)
  {
    forall i :: 0 <= i < |s| ==> IsWhiteSpace(s[i])
  }

  /** Upper-case mapping of the ASCII letters; every other character maps to itself. */
  function ToUpperAscii(c: char): char
  {
    if 'a' <= c <= 'z' then (c as int - 32) as char else c
  }

  /**
   * string.Equals(a, b, StringComparison.OrdinalIgnoreCase), restricted to ASCII case folding.
   * It agrees with .NET whenever one side is ASCII text such as "pppoe-out".
   */
  predicate EqualsIgnoreCase(a: string, b: string)
  {
    |a| == |b| && forall i :: 0 <= i < |a| ==> ToUpperAscii(a[i]) == ToUpperAscii(b[i])
  }

  /** Concatenation of a sequence of strings. */
  function Concat(parts: seq<string>): string
  {
    if parts == [] then "" else Concat(parts[..|parts| - 1]) + parts[|parts| - 1]
  }

  /** `s` with every occurrence of `sep` removed. */
  function Remove(s: string, sep: char): (r: string)
    ensures sep !in r
  {
    if s == [] then ""
    else if s[0] == sep then Remove(s[1..], sep)
    else [s[0]] + Remove(s[1..], sep)
  }

  /** Position of the first `sep` in `s`, or |s| when there is none. */
  function IndexOf(s: string, sep: char): (k: nat)
    ensures k <= |s|
    ensures forall j :: 0 <= j < k ==> s[j] != sep
    ensures k < |s| ==> s[k] == sep
  {
    if s == [] then 0 else if s[0] == sep then 0 else 1 + IndexOf(s[1..], sep)
  }

  /** s.Split(sep, StringSplitOptions.RemoveEmptyEntries): the maximal non-empty runs without `sep`. */
  function SplitNonEmpty(s: string, sep: char): (parts: seq<string>)
    ensures forall p :: p in parts ==> p != [] && sep !in p
    decreases |s|
  {
    if s == [] then []
    else if s[0] == sep then SplitNonEmpty(s[1..], sep)
    else
      var k := IndexOf(s, sep);
      [s[..k]] + (if k == |s| then [] else SplitNonEmpty(s[k + 1..], sep))
  }

  lemma ConcatPrepend(p: string, parts: seq<string>)
    ensures Concat([p] + parts) == p + Concat(parts)
  {
    if parts != [] {
      calc {
        Concat([p] + parts);
        { assert ([p] + parts)[..|[p] + parts| - 1] == [p] + parts[..|parts| - 1]; }
        Concat([p] + parts[..|parts| - 1]) + parts[|parts| - 1];
        { ConcatPrepend(p, parts[..|parts| - 1]); }
        p + Concat(parts[..|parts| - 1]) + parts[|parts| - 1];
      }
    } else {
      assert [p] + parts == [p];
      assert Concat([p][..0]) == "" by { assert [p][..0] == []; }
    }
  }

  lemma RemoveAppend(a: string, b: string, sep: char)
    ensures Remove(a + b, sep) == Remove(a, sep) + Remove(b, sep)
  {
    if a != [] {
      assert (a + b)[1..] == a[1..] + b;
      RemoveAppend(a[1..], b, sep);
    } else {
      assert a + b == b;
    }
  }

  /** Splitting loses nothing but the separators: the parts, joined, are `s` without its separators. */
  lemma {:induction false} SplitKeepsText(s: string, sep: char)
    ensures Concat(SplitNonEmpty(s, sep)) == Remove(s, sep)
    decreases |s|
  {
    if s == [] {
    } else if s[0] == sep {
      SplitKeepsText(s[1..], sep);
    } else {
      var k := IndexOf(s, sep);
      var rest := if k == |s| then [] else SplitNonEmpty(s[k + 1..], sep);
      ConcatPrepend(s[..k], rest);
      assert s == s[..k] + s[k..];
      RemoveAppend(s[..k], s[k..], sep);
      NoSeparatorKept(s[..k], sep);
      if k == |s| {
        assert s[k..] == [];
      } else {
        assert s[k..] == [sep] + s[k + 1..];
        SplitKeepsText(s[k + 1..], sep);
      }
    }
  }

  lemma NoSeparatorKept(s: string, sep: char)
    requires sep !in s
    ensures Remove(s, sep) == s
  {
    if s != [] {
      assert s == [s[0]] + s[1..];
      NoSeparatorKept(s[1..], sep);
    }
  }

  /** For a text that does not start with a separator, the first part is everything before the first separator. */
  lemma FirstPart(s: string, sep: char)
    requires s != [] && s[0] != sep
    ensures SplitNonEmpty(s, sep) != [] && SplitNonEmpty(s, sep)[0] == s[..IndexOf(s, sep)]
  {
  }

  // ---- Int32.ToString and Int32.TryParse ----

  predicate IsDigit(c: char)
  {
    '0' <= c <= '9'
  }

  predicate AllDigits(s: string)
  {
    forall i :: 0 <= i < |s| ==> IsDigit(s[i])
  }

  function DigitChar(d: nat): (c: char)
    requires d < 10
    ensures IsDigit(c) && c as int - '0' as int == d
  {
    ('0' as int + d) as char
  }

  /** Decimal digits of `n`, most significant first, without leading zeros. */
  function NatToString(n: nat): (s: string)
    ensures s != [] && AllDigits(s)
  {
    if n < 10 then [DigitChar(n)] else NatToString(n / 10) + [DigitChar(n % 10)]
  }

  /** The number that a string of decimal digits denotes. */
  function DigitsValue(s: string): nat
    requires AllDigits(s)
  {
    if s == [] then 0 else DigitsValue(s[..|s| - 1]) * 10 + (s[|s| - 1] as int - '0' as int)
  }

  /** Int32.ToString() with the invariant culture's "-" sign. */
  function IntToString(n: int): string
  {
    if n < 0 then "-" + NatToString(-n) else NatToString(n)
  }

  /** The white space NumberStyles.Integer allows around a number: U+0009..U+000D and U+0020. */
  predicate IsNumberWhite(c: char)
  {
    c == ' ' || '\t' <= c <= '\r'
  }

  function TrimStart(s: string): (r: string)
    ensures |r| <= |s|
  {
    if s != [] && IsNumberWhite(s[0]) then TrimStart(s[1..]) else s
  }

  function TrimEnd(s: string): (r: string)
    ensures |r| <= |s|
  {
    if s != [] && IsNumberWhite(s[|s| - 1]) then TrimEnd(s[..|s| - 1]) else s
  }

  /** The digits of a number text: white space around it and one leading sign removed. */
  function NumberDigits(s: string): string
  {
    var t := TrimEnd(TrimStart(s));
    if t != [] && (t[0] == '-' || t[0] == '+') then t[1..] else t
  }

  /** The text has the NumberStyles.Integer form: optional white space around an optional sign and at least one digit. */
  predicate IntegerText(s: string)
  {
    NumberDigits(s) != [] && AllDigits(NumberDigits(s))
  }

  /** The value an integer text denotes, whatever its size. */
  function IntegerValue(s: string): int
    requires IntegerText(s)
  {
    var t := TrimEnd(TrimStart(s));
    if t[0] == '-' then -(DigitsValue(NumberDigits(s)) as int) else DigitsValue(NumberDigits(s))
  }

  /** Int32.TryParse(s, out _) with NumberStyles.Integer: an integer text whose value is within the 32-bit range. */
  function TryParseInt32(s: string): (r: Option<int>)
    ensures r.Some? ==> MinInt32 <= r.value <= MaxInt32
    ensures r.Some? ==> IntegerText(s) && r.value == IntegerValue(s)
  {
    if IntegerText(s) && MinInt32 <= IntegerValue(s) <= MaxInt32 then Some(IntegerValue(s)) else None
  }

  /** Reading back the digits of a number gives the number. */
  lemma {:induction false} DigitsRoundTrip(n: nat)
    ensures DigitsValue(NatToString(n)) == n
  {
    if n >= 10 {
      var s := NatToString(n);
      assert s[..|s| - 1] == NatToString(n / 10);
      DigitsRoundTrip(n / 10);
    }
  }

  /** Printing a port (or any non-negative Int32) and parsing the text back gives the same number. */
  lemma PrintedIntParses(n: int)
    requires 0 <= n <= MaxInt32
    ensures TryParseInt32(IntToString(n)) == Some(n)
  {
    var s := NatToString(n);
    assert !IsNumberWhite(s[0]) && !IsNumberWhite(s[|s| - 1]);
    assert TrimStart(s) == s;
    assert TrimEnd(s) == s;
    assert s[0] != '-' && s[0] != '+';
    DigitsRoundTrip(n);
  }
}
