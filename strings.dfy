/**
 * String primitives shared by the backend (Go) and frontend (TypeScript) models:
 * the whitespace classes of the two runtimes, trimming, prefix search,
 * splitting, replace-all, and the byte / code-unit lengths that Go's `len`
 * and JavaScript's `.length` report.
 *
 * Strings are sequences of Unicode scalar values; a Go string is taken to be
 * valid UTF-8, so working on runes is the same as working on its bytes for
 * every operation below.
 */
module Strings {

  datatype Option<T> = None | Some(value: T)

  datatype Result<T, E> = Ok(value: T) | Err(error: E)

  // ---------------------------------------------------------------------------
  // Whitespace classes
  // ---------------------------------------------------------------------------

  /** Go's unicode.IsSpace, the class that strings.TrimSpace removes. */
  predicate IsGoSpace(c: char)
  {
    var n := c as int;
    (0x09 <= n <= 0x0D) || n == 0x20 || n == 0x85 || n == 0xA0 || n == 0x1680 ||
    (0x2000 <= n <= 0x200A) || n == 0x2028 || n == 0x2029 || n == 0x202F || n == 0x205F || n == 0x3000
  }

  /** The `\s` class of Go's RE2 engine: ASCII only, and without vertical tab. */
  predicate IsRe2Space(c: char)
  {
    c == '\t' || c == '\n' || c as int == 0x0C || c == '\r' || c == ' '
  }

  /** JavaScript's WhiteSpace and LineTerminator, the class of `\s` and of String.prototype.trim. */
  predicate IsJsSpace(c: char)
  {
    var n := c as int;
    (0x09 <= n <= 0x0D) || n == 0x20 || n == 0xA0 || n == 0x1680 ||
    (0x2000 <= n <= 0x200A) || n == 0x2028 || n == 0x2029 || n == 0x202F || n == 0x205F || n == 0x3000 ||
    n == 0xFEFF
  }

  predicate NoneSatisfy(s: string, p: char -> bool)
  {
    forall i :: 0 <= i < |s| ==> !p(s[i])
  }

  // ---------------------------------------------------------------------------
  // Trimming
  // ---------------------------------------------------------------------------

  /** Drops the leading characters that satisfy `isSpace`. */
  function TrimLeft(s: string, isSpace: char -> bool): (r: string)
    ensures |r| <= |s| && r == s[|s| - |r|..]
    ensures r == [] || !isSpace(r[0])
    ensures forall i :: 0 <= i < |s| - |r| ==> isSpace(s[i])
  {
    if s == [] || !isSpace(s[0]) then s else TrimLeft(s[1..], isSpace)
  }

  /** Drops the trailing characters that satisfy `isSpace`. */
  function TrimRight(s: string, isSpace: char -> bool): (r: string)
    ensures |r| <= |s| && r == s[..|r|]
    ensures r == [] || !isSpace(r[|r| - 1])
    ensures forall i :: |r| <= i < |s| ==> isSpace(s[i])
  {
    if s == [] || !isSpace(s[|s| - 1]) then s else TrimRight(s[..|s| - 1], isSpace)
  }

  /** Go's strings.TrimSpace. */
  function TrimSpace(s: string): (r: string)
  {
    TrimRight(TrimLeft(s, IsGoSpace), IsGoSpace)
  }

  /** JavaScript's String.prototype.trim. */
  function JsTrim(s: string): (r: string)
  {
    TrimRight(TrimLeft(s, IsJsSpace), IsJsSpace)
  }

  /** Trimming leaves a string that neither starts nor ends with the class; it
      is empty exactly when every character of the input is in the class. */
  lemma TrimBoth(s: string, isSpace: char -> bool)
    ensures var r := TrimRight(TrimLeft(s, isSpace), isSpace);
            (r == [] || (!isSpace(r[0]) && !isSpace(r[|r| - 1]))) &&
            (r == [] <==> forall i :: 0 <= i < |s| ==> isSpace(s[i]))
  {
    var l := TrimLeft(s, isSpace);
    var r := TrimRight(l, isSpace);
    var k := |s| - |l|;
    if r == [] {
      forall i | 0 <= i < |s| ensures isSpace(s[i]) {
        if i >= k { assert s[i] == l[i - k]; }
      }
    } else {
      assert r[0] == l[0];
    }
  }

  lemma TrimSpaceEmpty(s: string)
    ensures TrimSpace(s) == [] <==> forall i :: 0 <= i < |s| ==> IsGoSpace(s[i])
  {
    TrimBoth(s, IsGoSpace);
  }

  lemma JsTrimEmpty(s: string)
    ensures JsTrim(s) == [] <==> forall i :: 0 <= i < |s| ==> IsJsSpace(s[i])
  {
    TrimBoth(s, IsJsSpace);
  }

  /** Trimming a string that is already trimmed changes nothing. */
  lemma TrimIdentity(s: string, isSpace: char -> bool)
    requires s == [] || (!isSpace(s[0]) && !isSpace(s[|s| - 1]))
    ensures TrimRight(TrimLeft(s, isSpace), isSpace) == s
  {
  }

  // ---------------------------------------------------------------------------
  // Prefixes, search, split
  // ---------------------------------------------------------------------------

  predicate HasPrefix(s: string, p: string)
  {
    |p| <= |s| && s[..|p|] == p
  }

  predicate OccursAt(s: string, sub: string, i: int)
  {
    0 <= i && i + |sub| <= |s| && s[i..i + |sub|] == sub
  }

  /** Index of the first occurrence of `sub` in `s` (Go's strings.Index, with -1 as None). */
  function IndexOf(s: string, sub: string): (r: Option<nat>)
    ensures r.Some? ==> OccursAt(s, sub, r.value) && forall j :: 0 <= j < r.value ==> !OccursAt(s, sub, j)
    ensures r.None? ==> forall j :: 0 <= j <= |s| ==> !OccursAt(s, sub, j)
    decreases |s|
  {
    if HasPrefix(s, sub) then Some(0)
    else if |s| <= |sub| then None
    else
      match IndexOf(s[1..], sub)
      case None =>
        assert forall j :: 1 <= j <= |s| ==> (OccursAt(s, sub, j) <==> OccursAt(s[1..], sub, j - 1));
        None
      case Some(k) =>
        assert forall j :: 1 <= j <= |s| ==> (OccursAt(s, sub, j) <==> OccursAt(s[1..], sub, j - 1));
        Some(k + 1)
  }

  predicate Contains(s: string, sub: string)
  {
    IndexOf(s, sub).Some?
  }

  /** Index of the first occurrence of a character. */
  function IndexOfChar(s: string, c: char): (r: Option<nat>)
    ensures r.Some? ==> r.value < |s| && s[r.value] == c && c !in s[..r.value]
    ensures r.None? ==> c !in s
  {
    if s == [] then None
    else if s[0] == c then Some(0)
    else match IndexOfChar(s[1..], c)
      case None => None
      case Some(k) => assert s[1..][..k] == s[1..k + 1]; Some(k + 1)
  }

  /** The text before the first `c`, or all of `s` (the `s[:strings.Index(s, c)]` idiom). */
  function CutAtChar(s: string, c: char): (r: string)
    ensures c !in r
    ensures HasPrefix(s, r)
    ensures r != s ==> |r| < |s| && s[|r|] == c
  {
    match IndexOfChar(s, c)
    case None => s
    case Some(k) => s[..k]
  }

  /** Go's strings.Split for a non-empty separator. */
  function Split(s: string, sep: string): (r: seq<string>)
    requires |sep| > 0
    ensures |r| >= 1
    ensures JoinWith(r, sep) == s
    ensures forall i :: 0 <= i < |r| ==> !Contains(r[i], sep)
    decreases |s|
  {
    match IndexOf(s, sep)
    case None => [s]
    case Some(k) =>
      NoOccurrenceInPrefix(s, sep, k);
      var rest := Split(s[k + |sep|..], sep);
      assert s == s[..k] + sep + s[k + |sep|..];
      [s[..k]] + rest
  }

  function JoinWith(parts: seq<string>, sep: string): string
  {
    if |parts| == 0 then [] else if |parts| == 1 then parts[0] else parts[0] + sep + JoinWith(parts[1..], sep)
  }

  /** No occurrence of `sub` inside the text before its first occurrence. */
  lemma NoOccurrenceInPrefix(s: string, sub: string, k: nat)
    requires k <= |s| && |sub| > 0
    requires forall j :: 0 <= j < k ==> !OccursAt(s, sub, j)
    ensures !Contains(s[..k], sub)
  {
    var p := s[..k];
    forall j | 0 <= j <= |p| ensures !OccursAt(p, sub, j) {
      if OccursAt(p, sub, j) {
        assert p[j..j + |sub|] == s[j..j + |sub|];
        assert OccursAt(s, sub, j);
      }
    }
  }

  /** Go's strings.ReplaceAll for a non-empty pattern: leftmost, non-overlapping. */
  function ReplaceAll(s: string, pat: string, rep: string): (r: string)
    requires |pat| > 0
    decreases |s|
  {
    if |s| < |pat| then s
    else if s[..|pat|] == pat then rep + ReplaceAll(s[|pat|..], pat, rep)
    else [s[0]] + ReplaceAll(s[1..], pat, rep)
  }

  /** A pattern that starts with a character absent from `s` is never found. */
  lemma {:induction false} ReplaceAllAbsent(s: string, pat: string, rep: string)
    requires |pat| > 0 && pat[0] !in s
    ensures ReplaceAll(s, pat, rep) == s
    decreases |s|
  {
    if |s| >= |pat| {
      assert s[..|pat|][0] == s[0];
      ReplaceAllAbsent(s[1..], pat, rep);
    }
  }

  /** Replacing through a prefix that cannot hold the pattern's first character
      copies the prefix. */
  lemma {:induction false} ReplaceAllAppend(a: string, b: string, pat: string, rep: string)
    requires |pat| > 0 && pat[0] !in a
    ensures ReplaceAll(a + b, pat, rep) == a + ReplaceAll(b, pat, rep)
    decreases |a|
  {
    if a != [] {
      var s := a + b;
      if |s| < |pat| {
        assert |b| < |pat|;
        assert ReplaceAll(b, pat, rep) == b;
        assert ReplaceAll(s, pat, rep) == s;
      } else {
        assert s[..|pat|][0] == s[0];
        assert s[0] == a[0];
        assert s[..|pat|] != pat;
        assert s[1..] == a[1..] + b;
        ReplaceAllAppend(a[1..], b, pat, rep);
        calc {
          ReplaceAll(s, pat, rep);
          [s[0]] + ReplaceAll(s[1..], pat, rep);
          [a[0]] + (a[1..] + ReplaceAll(b, pat, rep));
          { assert [a[0]] + a[1..] == a; }
          a + ReplaceAll(b, pat, rep);
        }
      }
    } else {
      assert a + b == b;
    }
  }

  // ---------------------------------------------------------------------------
  // Character classes and case
  // ---------------------------------------------------------------------------

  predicate IsAsciiDigit(c: char) { '0' <= c <= '9' }
  predicate IsAsciiLower(c: char) { 'a' <= c <= 'z' }
  predicate IsAsciiUpper(c: char) { 'A' <= c <= 'Z' }
  predicate IsLowerHex(c: char) { IsAsciiDigit(c) || ('a' <= c <= 'f') }

  function ToLowerAscii(c: char): (r: char)
    ensures IsAsciiUpper(c) ==> IsAsciiLower(r) && r as int == c as int + 32
    ensures !IsAsciiUpper(c) ==> r == c
  {
    if IsAsciiUpper(c) then (c as int + 32) as char else c
  }

  function ToUpperAscii(c: char): (r: char)
    ensures IsAsciiLower(c) ==> IsAsciiUpper(r) && r as int == c as int - 32
    ensures !IsAsciiLower(c) ==> r == c
  {
    if IsAsciiLower(c) then (c as int - 32) as char else c
  }

  function LowerAscii(s: string): (r: string)
    ensures |r| == |s| && forall i :: 0 <= i < |s| ==> r[i] == ToLowerAscii(s[i])
  {
    if s == [] then [] else [ToLowerAscii(s[0])] + LowerAscii(s[1..])
  }

  /** Go's unicode.ToLower, as far as it decides a match against ASCII
      text. The characters whose lower case is ASCII are the ASCII capitals,
      U+0130 (capital I with dot above, lowered to 'i') and U+212A (the
      Kelvin sign, lowered to 'k'); those are lowered. Any other character
      Go lowers stays outside ASCII, and is kept here as it is. */
  function GoLowerChar(c: char): char
  {
    if IsAsciiUpper(c) then ToLowerAscii(c)
    else if c == '\U{0130}' then 'i'
    else if c == '\U{212A}' then 'k'
    else c
  }

  /** strings.ToLower, character by character. */
  function GoLower(s: string): (r: string)
    ensures |r| == |s| && forall i :: 0 <= i < |s| ==> r[i] == GoLowerChar(s[i])
  {
    if s == [] then [] else [GoLowerChar(s[0])] + GoLower(s[1..])
  }

  /** Text already in ASCII lower case is its own lowering. */
  lemma GoLowerOfLower(s: string)
    requires forall i :: 0 <= i < |s| ==> IsAsciiLower(s[i])
    ensures GoLower(s) == s
  {
    assert forall i :: 0 <= i < |s| ==> GoLower(s)[i] == s[i];
  }

  /** Which characters lower to a given ASCII lower-case letter: the letter
      itself, its capital, and for 'i' and 'k' the one non-ASCII capital
      each that Go lowers to it. */
  lemma GoLowerToLetter(c: char, l: char)
    requires IsAsciiLower(l)
    ensures GoLowerChar(c) == l <==>
              c == l || c == ToUpperAscii(l) || (l == 'i' && c == '\U{0130}') || (l == 'k' && c == '\U{212A}')
  {
  }

  /** Lowering keeps ASCII text ASCII and brings only the two special
      capitals into ASCII. */
  lemma GoLowerAscii(c: char)
    ensures (GoLowerChar(c) as int < 0x80) <==> c as int < 0x80 || c == '\U{0130}' || c == '\U{212A}'
    ensures c as int < 0x80 ==> GoLowerChar(c) == ToLowerAscii(c)
  {
  }

  // ---------------------------------------------------------------------------
  // Lengths as the two runtimes count them
  // ---------------------------------------------------------------------------

  /** Bytes of one scalar value in UTF-8. */
  function Utf8Width(c: char): (w: nat)
    ensures 1 <= w <= 4
    ensures w == 1 <==> c as int < 0x80
  {
    if c as int < 0x80 then 1 else if c as int < 0x800 then 2 else if c as int < 0x10000 then 3 else 4
  }

  /** Go's len on a string: its length in UTF-8 bytes. */
  function Utf8Len(s: string): (n: nat)
    ensures |s| <= n <= 4 * |s|
    ensures (forall i :: 0 <= i < |s| ==> s[i] as int < 0x80) ==> n == |s|
  {
    if s == [] then 0 else Utf8Width(s[0]) + Utf8Len(s[1..])
  }

  /** JavaScript's .length: UTF-16 code units. */
  function Utf16Len(s: string): (n: nat)
    ensures |s| <= n <= 2 * |s|
    ensures (forall i :: 0 <= i < |s| ==> s[i] as int < 0x10000) ==> n == |s|
  {
    if s == [] then 0 else (if s[0] as int < 0x10000 then 1 else 2) + Utf16Len(s[1..])
  }

  // ---------------------------------------------------------------------------
  // Decimal integers (strconv.Atoi)
  // ---------------------------------------------------------------------------

  function DigitsValue(s: string): (n: nat)
    requires forall i :: 0 <= i < |s| ==> IsAsciiDigit(s[i])
  {
    if s == [] then 0
    else
      assert IsAsciiDigit(s[|s| - 1]);
      DigitsValue(s[..|s| - 1]) * 10 + (s[|s| - 1] as int - '0' as int)
  }

  predicate AllDigits(s: string)
  {
    forall i :: 0 <= i < |s| ==> IsAsciiDigit(s[i])
  }

  /** The sign a numeral carries: -1 after a leading '-', 1 otherwise. */
  function SignOf(s: string): int
  {
    if |s| > 0 && s[0] == '-' then -1 else 1
  }

  /** A numeral without its leading sign, if it has one. */
  function Unsigned(s: string): string
  {
    if |s| > 0 && (s[0] == '+' || s[0] == '-') then s[1..] else s
  }

  /** The texts strconv.Atoi accepts: an optional sign, then at least one
      decimal digit and nothing else, with a value inside Go's 64-bit int. */
  predicate Int64Text(s: string)
  {
    var u := Unsigned(s);
    |u| > 0 && AllDigits(u) &&
    -0x8000_0000_0000_0000 <= SignOf(s) * DigitsValue(u) < 0x8000_0000_0000_0000
  }

  /** Go's strconv.Atoi on a 64-bit platform: an optional sign followed by at
      least one decimal digit, within the int64 range; anything else is an error. */
  function Atoi(s: string): (r: Option<int>)
    ensures r.Some? <==> Int64Text(s)
    ensures r.Some? ==> r.value == SignOf(s) * DigitsValue(Unsigned(s))
    ensures r.Some? ==> -0x8000_0000_0000_0000 <= r.value < 0x8000_0000_0000_0000
  {
    if |s| > 0 && (s[0] == '+' || s[0] == '-') then
      var body := s[1..];
      if |body| > 0 && AllDigits(body) then
        var v: int := DigitsValue(body);
        if s[0] == '-' then (if v <= 0x8000_0000_0000_0000 then Some(-v) else None)
        else (if v < 0x8000_0000_0000_0000 then Some(v) else None)
      else None
    else if |s| > 0 && AllDigits(s) && DigitsValue(s) < 0x8000_0000_0000_0000 then Some(DigitsValue(s))
    else None
  }

  /** What strconv.Atoi refuses: the empty text, a lone sign, and any
      character that is not a digit other than a leading sign. A plain digit
      string within range reads as its decimal value. */
  lemma AtoiRejects(s: string, i: nat)
    ensures Atoi("").None? && Atoi("+").None? && Atoi("-").None?
    ensures i < |s| && !IsAsciiDigit(s[i]) && !(i == 0 && (s[0] == '+' || s[0] == '-')) ==> Atoi(s).None?
    ensures AllDigits(s) && |s| > 0 && DigitsValue(s) < 0x8000_0000_0000_0000 ==> Atoi(s) == Some(DigitsValue(s))
  {
    if i < |s| && !IsAsciiDigit(s[i]) && !(i == 0 && (s[0] == '+' || s[0] == '-')) {
      if |s| > 0 && (s[0] == '+' || s[0] == '-') {
        assert Unsigned(s)[i - 1] == s[i];
      } else {
        assert Unsigned(s)[i] == s[i];
      }
    }
  }

  // ---------------------------------------------------------------------------
  // Decimal text of integers (strconv.Itoa, fmt's %d, JavaScript's String(n))
  // ---------------------------------------------------------------------------

  function DigitChar(d: nat): (c: char)
    requires d < 10
    ensures IsAsciiDigit(c) && c as int - '0' as int == d
  {
    ('0' as int + d) as char
  }

  /** The decimal digits of a natural number, without leading zeros. */
  function Digits(n: nat): (s: string)
    ensures |s| >= 1 && AllDigits(s)
    ensures |s| > 1 ==> s[0] != '0'
  {
    if n < 10 then [DigitChar(n)] else Digits(n / 10) + [DigitChar(n % 10)]
  }

  /** strconv.Itoa: the decimal text of an integer, with a '-' when negative. */
  function FormatInt(n: int): (s: string)
    ensures |s| >= 1
    ensures n >= 0 ==> AllDigits(s)
    ensures n < 0 ==> s[0] == '-' && AllDigits(s[1..]) && |s| >= 2
  {
    if n < 0 then "-" + Digits(-n) else Digits(n)
  }

  lemma {:induction false} DigitsValueOf(n: nat)
    ensures DigitsValue(Digits(n)) == n
  {
    if n >= 10 {
      DigitsValueOf(n / 10);
      var s := Digits(n);
      assert s[..|s| - 1] == Digits(n / 10);
    }
  }

  /** The text reads back as the number under strconv.Atoi, for every value
      of Go's 64-bit int. */
  lemma FormatIntRoundTrip(n: int)
    requires -0x8000_0000_0000_0000 <= n < 0x8000_0000_0000_0000
    ensures Atoi(FormatInt(n)) == Some(n)
  {
    var s := FormatInt(n);
    if n < 0 {
      DigitsValueOf(-n);
      assert s[0] == '-' && s[1..] == Digits(-n);
      assert DigitsValue(s[1..]) == -n;
    } else {
      DigitsValueOf(n);
      assert s == Digits(n) && s[0] != '+' && s[0] != '-';
    }
  }
}
