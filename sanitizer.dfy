/**
 * Path-component sanitising (backend/internal/fileutil/sanitizer.go).
 *
 * SanitizePath runs three passes in order: every character of the invalid set
 * is replaced by a hyphen (one strings.ReplaceAll per character), the result
 * is trimmed of Unicode whitespace, and then every run of RE2 `\s` characters
 * (tab, newline, form feed, carriage return, space) becomes a single space.
 * The two whitespace classes differ, and the model keeps them apart.
 */
module Sanitizer {
  import opened Strings

  /** The characters a path component may not contain, in the order the source replaces them. */
  const InvalidChars: seq<char> := ['/', '\\', ':', '*', '?', '"', '<', '>', '|']

  // ---------------------------------------------------------------------------
  // The three passes, as the source writes them
  // ---------------------------------------------------------------------------

  /** The replacement loop: one ReplaceAll per invalid character, in list order. */
  function ReplaceEach(s: string, chars: seq<char>): string
    decreases |chars|
  {
    if chars == [] then s else ReplaceEach(ReplaceAll(s, [chars[0]], "-"), chars[1..])
  }

  /** `\s+` replaced by a single space: each maximal run of RE2 whitespace becomes " ". */
  function CollapseSpaces(s: string): string
    decreases |s|
  {
    if s == [] then []
    else if IsRe2Space(s[0]) then " " + CollapseSpaces(TrimLeft(s, IsRe2Space))
    else [s[0]] + CollapseSpaces(s[1..])
  }

  /** The result holds no invalid character, neither starts nor ends with
      whitespace, and holds RE2 whitespace only as isolated single spaces. */
  function SanitizePath(path: string): (r: string)
    ensures NoInvalid(r) && Trimmed(r) && Collapsed(r)
  {
    SanitizeNoInvalid(path);
    SanitizeTrimmed(path);
    CollapseIsCollapsed(TrimSpace(ReplaceEach(path, InvalidChars)));
    CollapseSpaces(TrimSpace(ReplaceEach(path, InvalidChars)))
  }

  /** SanitizeFilename delegates to SanitizePath; a file name can therefore never
      carry a directory separator. */
  function SanitizeFilename(filename: string): (r: string)
    ensures '/' !in r && '\\' !in r
    ensures r == [] || (!IsGoSpace(r[0]) && !IsGoSpace(r[|r| - 1]))
  {
    SanitizePath(filename)
  }

  // ---------------------------------------------------------------------------
  // Reference definitions
  // ---------------------------------------------------------------------------

  /** Each character of `chars` replaced by exactly one hyphen, everything else kept. */
  function Dashed(s: string, chars: seq<char>): (r: string)
    ensures |r| == |s|
  {
    seq(|s|, i requires 0 <= i < |s| => if s[i] in chars then '-' else s[i])
  }

  /** The characters that are not Go whitespace, in order. */
  function Visible(s: string): string
  {
    if s == [] then [] else (if IsGoSpace(s[0]) then [] else [s[0]]) + Visible(s[1..])
  }

  /** RE2 whitespace occurs only as a single space with no RE2 whitespace after it. */
  predicate Collapsed(s: string)
  {
    forall i :: 0 <= i < |s| && IsRe2Space(s[i]) ==> s[i] == ' ' && (i + 1 < |s| ==> !IsRe2Space(s[i + 1]))
  }

  predicate Trimmed(s: string)
  {
    s == [] || (!IsGoSpace(s[0]) && !IsGoSpace(s[|s| - 1]))
  }

  predicate NoInvalid(s: string)
  {
    forall i :: 0 <= i < |s| ==> s[i] !in InvalidChars
  }

  // ---------------------------------------------------------------------------
  // The replacement pass
  // ---------------------------------------------------------------------------

  /** Replacing a one-character pattern rewrites exactly the positions holding it. */
  lemma {:induction false} ReplaceOneChar(s: string, c: char, d: char)
    ensures ReplaceAll(s, [c], [d]) == seq(|s|, i requires 0 <= i < |s| => if s[i] == c then d else s[i])
    decreases |s|
  {
    var want := seq(|s|, i requires 0 <= i < |s| => if s[i] == c then d else s[i]);
    if s != [] {
      ReplaceOneChar(s[1..], c, d);
      var tail := seq(|s| - 1, i requires 0 <= i < |s| - 1 => if s[1..][i] == c then d else s[1..][i]);
      if s[..1] == [c] {
        assert ReplaceAll(s, [c], [d]) == [d] + ReplaceAll(s[1..], [c], [d]);
      } else {
        assert s[0] != c;
      }
      assert want == [want[0]] + tail;
    }
  }

  /** The replacement loop replaces each invalid occurrence by exactly one hyphen,
      because the hyphen itself is never in the list. */
  lemma {:induction false} ReplaceEachIsDashed(s: string, chars: seq<char>)
    requires '-' !in chars
    ensures ReplaceEach(s, chars) == Dashed(s, chars)
    decreases |chars|
  {
    if chars != [] {
      var s' := ReplaceAll(s, [chars[0]], "-");
      ReplaceOneChar(s, chars[0], '-');
      ReplaceEachIsDashed(s', chars[1..]);
      assert Dashed(s', chars[1..]) == Dashed(s, chars);
    } else {
      assert Dashed(s, chars) == s;
    }
  }

  lemma ReplacePass(s: string)
    ensures ReplaceEach(s, InvalidChars) == Dashed(s, InvalidChars)
    ensures NoInvalid(ReplaceEach(s, InvalidChars))
  {
    InvalidCharsShape();
    ReplaceEachIsDashed(s, InvalidChars);
    DashedAvoids(s, InvalidChars);
  }

  /** Neither the hyphen nor the space is an invalid character. */
  lemma InvalidCharsShape()
    ensures '-' !in InvalidChars && ' ' !in InvalidChars
  {
    forall i | 0 <= i < |InvalidChars| ensures InvalidChars[i] != '-' && InvalidChars[i] != ' ' {}
  }

  /** With the hyphen outside the list, the dashed string holds none of it. */
  lemma DashedAvoids(s: string, chars: seq<char>)
    requires '-' !in chars
    ensures forall i :: 0 <= i < |s| ==> Dashed(s, chars)[i] !in chars
  {
  }

  // ---------------------------------------------------------------------------
  // The collapse pass
  // ---------------------------------------------------------------------------

  lemma {:induction false} CollapseEmpty(s: string)
    ensures s == [] <==> CollapseSpaces(s) == []
  {
  }

  /** Collapsing keeps the first character when it is not RE2 whitespace. */
  lemma CollapseFirst(s: string)
    requires s != [] && !IsRe2Space(s[0])
    ensures CollapseSpaces(s) != [] && CollapseSpaces(s)[0] == s[0]
  {
  }

  /** Collapsing keeps the last character when it is not RE2 whitespace. */
  lemma {:induction false} CollapseLast(s: string)
    requires s != [] && !IsRe2Space(s[|s| - 1])
    ensures var r := CollapseSpaces(s); r != [] && r[|r| - 1] == s[|s| - 1]
    decreases |s|
  {
    var r := CollapseSpaces(s);
    if IsRe2Space(s[0]) {
      var t := TrimLeft(s, IsRe2Space);
      assert t != [] && t[|t| - 1] == s[|s| - 1];
      CollapseLast(t);
    } else if |s| > 1 {
      CollapseLast(s[1..]);
      assert r == [s[0]] + CollapseSpaces(s[1..]);
    }
  }

  /** Collapsing writes only input characters or a space. */
  lemma {:induction false} CollapseChars(s: string)
    ensures forall c :: c in CollapseSpaces(s) ==> c == ' ' || c in s
    decreases |s|
  {
    if s != [] {
      if IsRe2Space(s[0]) {
        var t := TrimLeft(s, IsRe2Space);
        CollapseChars(t);
        assert forall c :: c in t ==> c in s;
      } else {
        CollapseChars(s[1..]);
      }
    }
  }

  /** Collapsing leaves RE2 whitespace only as isolated single spaces. */
  lemma {:induction false} CollapseIsCollapsed(s: string)
    ensures Collapsed(CollapseSpaces(s))
    decreases |s|
  {
    if s != [] {
      if IsRe2Space(s[0]) {
        var t := TrimLeft(s, IsRe2Space);
        CollapseIsCollapsed(t);
        if t != [] { CollapseFirst(t); }
        ConsCollapsed(' ', CollapseSpaces(t));
      } else {
        CollapseIsCollapsed(s[1..]);
        ConsCollapsed(s[0], CollapseSpaces(s[1..]));
      }
    }
  }

  /** A character put in front of a collapsed string keeps it collapsed
      unless it makes a second whitespace in a row. */
  lemma ConsCollapsed(c: char, u: string)
    requires Collapsed(u)
    requires IsRe2Space(c) ==> c == ' ' && (u == [] || !IsRe2Space(u[0]))
    ensures Collapsed([c] + u)
  {
    var r := [c] + u;
    forall i | 0 <= i < |r| && IsRe2Space(r[i])
      ensures r[i] == ' ' && (i + 1 < |r| ==> !IsRe2Space(r[i + 1]))
    {
      if i > 0 {
        assert r[i] == u[i - 1];
        if i + 1 < |r| {
          assert r[i + 1] == u[i];
        }
      } else if i + 1 < |r| {
        assert r[1] == u[0];
      }
    }
  }

  /** A string that is already collapsed is a fixed point. */
  lemma {:induction false} CollapseFixed(s: string)
    requires Collapsed(s)
    ensures CollapseSpaces(s) == s
    decreases |s|
  {
    if s != [] {
      CollapsedTail(s);
      CollapseFixed(s[1..]);
      if IsRe2Space(s[0]) {
        SingleSpaceTrim(s);
        assert CollapseSpaces(s) == " " + s[1..];
      } else {
        assert CollapseSpaces(s) == [s[0]] + s[1..];
      }
      assert s == [s[0]] + s[1..];
    }
  }

  lemma CollapsedTail(s: string)
    requires s != [] && Collapsed(s)
    ensures Collapsed(s[1..])
  {
    var u := s[1..];
    forall i | 0 <= i < |u| && IsRe2Space(u[i])
      ensures u[i] == ' ' && (i + 1 < |u| ==> !IsRe2Space(u[i + 1]))
    {
      assert u[i] == s[i + 1];
      if i + 1 < |u| {
        assert u[i + 1] == s[i + 2];
      }
    }
  }

  /** A lone space at the front is all the trim removes. */
  lemma SingleSpaceTrim(s: string)
    requires s != [] && Collapsed(s) && IsRe2Space(s[0])
    ensures s[0] == ' ' && TrimLeft(s, IsRe2Space) == s[1..]
  {
    assert |s| > 1 ==> !IsRe2Space(s[1]);
    var u := s[1..];
    assert u == [] || !IsRe2Space(u[0]);
    assert TrimLeft(u, IsRe2Space) == u;
  }

  /** Collapsing changes only whitespace: the visible characters stay in order. */
  lemma {:induction false} CollapseVisible(s: string)
    ensures Visible(CollapseSpaces(s)) == Visible(s)
    decreases |s|
  {
    if s != [] {
      if IsRe2Space(s[0]) {
        var t := TrimLeft(s, IsRe2Space);
        CollapseVisible(t);
        VisibleDropsSpaces(s, |s| - |t|);
        assert Visible(" " + CollapseSpaces(t)) == Visible(CollapseSpaces(t));
      } else {
        CollapseVisible(s[1..]);
        assert ([s[0]] + CollapseSpaces(s[1..]))[1..] == CollapseSpaces(s[1..]);
      }
    }
  }

  // ---------------------------------------------------------------------------
  // Visible characters
  // ---------------------------------------------------------------------------

  lemma {:induction false} VisibleAppend(a: string, b: string)
    ensures Visible(a + b) == Visible(a) + Visible(b)
    decreases |a|
  {
    if a == [] {
      assert a + b == b;
    } else {
      assert (a + b)[1..] == a[1..] + b;
      VisibleAppend(a[1..], b);
    }
  }

  lemma {:induction false} VisibleOfSpaces(a: string)
    requires forall i :: 0 <= i < |a| ==> IsGoSpace(a[i])
    ensures Visible(a) == []
    decreases |a|
  {
    if a != [] { VisibleOfSpaces(a[1..]); }
  }

  /** Dropping a prefix of RE2 whitespace does not change the visible characters. */
  lemma VisibleDropsSpaces(s: string, k: nat)
    requires k <= |s| && forall i :: 0 <= i < k ==> IsRe2Space(s[i])
    ensures Visible(s[k..]) == Visible(s)
  {
    assert s == s[..k] + s[k..];
    VisibleAppend(s[..k], s[k..]);
    VisibleOfSpaces(s[..k]);
  }

  lemma TrimLeftVisible(s: string)
    ensures Visible(TrimLeft(s, IsGoSpace)) == Visible(s)
  {
    var l := TrimLeft(s, IsGoSpace);
    var k := |s| - |l|;
    assert l == s[k..];
    VisibleDropSpaces(s, k);
  }

  /** Dropping a prefix of Go whitespace does not change the visible characters. */
  lemma {:induction false} VisibleDropSpaces(s: string, k: nat)
    requires k <= |s| && forall i :: 0 <= i < k ==> IsGoSpace(s[i])
    ensures Visible(s[k..]) == Visible(s)
    decreases k
  {
    if k > 0 {
      assert IsGoSpace(s[0]);
      assert forall i :: 0 <= i < k - 1 ==> s[1..][i] == s[i + 1];
      VisibleDropSpaces(s[1..], k - 1);
      assert s[1..][k - 1..] == s[k..];
    }
  }

  lemma TrimRightVisible(s: string)
    ensures Visible(TrimRight(s, IsGoSpace)) == Visible(s)
  {
    var r := TrimRight(s, IsGoSpace);
    assert s == r + s[|r|..];
    VisibleAppend(r, s[|r|..]);
    assert forall i :: 0 <= i < |s| - |r| ==> s[|r|..][i] == s[|r| + i];
    VisibleOfSpaces(s[|r|..]);
  }

  lemma Re2IsGoSpace(c: char)
    ensures IsRe2Space(c) ==> IsGoSpace(c)
  {
  }

  /** Trimming only removes characters. */
  lemma TrimSpaceChars(s: string)
    ensures forall c :: c in TrimSpace(s) ==> c in s
  {
    var l := TrimLeft(s, IsGoSpace);
    var r := TrimRight(l, IsGoSpace);
    forall c | c in r ensures c in s {
      var i :| 0 <= i < |r| && r[i] == c;
      assert l[i] == c;
      assert s[|s| - |l| + i] == c;
    }
  }

  // ---------------------------------------------------------------------------
  // The properties of SanitizePath
  // ---------------------------------------------------------------------------

  /** The three passes leave no invalid character: the replacement removes
      them and the later passes only drop characters or write spaces. */
  lemma SanitizeNoInvalid(s: string)
    ensures NoInvalid(CollapseSpaces(TrimSpace(ReplaceEach(s, InvalidChars))))
  {
    var d := ReplaceEach(s, InvalidChars);
    ReplacePass(s);
    var t := TrimSpace(d);
    var r := CollapseSpaces(t);
    TrimSpaceChars(d);
    CollapseChars(t);
    InvalidCharsShape();
    forall i | 0 <= i < |r| ensures r[i] !in InvalidChars {
      var c := r[i];
      assert c in r;
      if c != ' ' {
        assert c in t;
        assert c in d;
      }
    }
  }

  /** The three passes leave no whitespace at either end. */
  lemma SanitizeTrimmed(s: string)
    ensures Trimmed(CollapseSpaces(TrimSpace(ReplaceEach(s, InvalidChars))))
  {
    var d := ReplaceEach(s, InvalidChars);
    TrimSpaceTrimmed(d);
    CollapseTrimmed(TrimSpace(d));
  }

  lemma TrimSpaceTrimmed(d: string)
    ensures Trimmed(TrimSpace(d))
  {
    TrimBoth(d, IsGoSpace);
  }

  /** Collapsing text that starts and ends with a non-space keeps it so. */
  lemma CollapseTrimmed(t: string)
    requires Trimmed(t)
    ensures Trimmed(CollapseSpaces(t))
  {
    if t != [] {
      Re2IsGoSpace(t[0]);
      Re2IsGoSpace(t[|t| - 1]);
      CollapseFirst(t);
      CollapseLast(t);
    } else {
      CollapseEmpty(t);
    }
  }

  /** Each invalid character becomes exactly one hyphen and the visible
      characters (neither Go whitespace) keep their order. */
  lemma SanitizeKeepsVisible(s: string)
    ensures Visible(SanitizePath(s)) == Visible(Dashed(s, InvalidChars))
  {
    ReplacePass(s);
    var d := ReplaceEach(s, InvalidChars);
    TrimLeftVisible(d);
    TrimRightVisible(TrimLeft(d, IsGoSpace));
    CollapseVisible(TrimSpace(d));
  }

  /** The result is empty exactly when the input is empty or all whitespace. */
  lemma SanitizeEmpty(s: string)
    ensures SanitizePath(s) == [] <==> forall i :: 0 <= i < |s| ==> IsGoSpace(s[i])
  {
    ReplacePass(s);
    var d := ReplaceEach(s, InvalidChars);
    TrimSpaceEmpty(d);
    CollapseEmpty(TrimSpace(d));
    DashedKeepsSpaces(s);
  }

  /** No invalid character is whitespace, so dashing keeps whitespace where it was. */
  lemma DashedKeepsSpaces(s: string)
    ensures var d := Dashed(s, InvalidChars);
            forall i :: 0 <= i < |s| ==> (IsGoSpace(d[i]) <==> IsGoSpace(s[i]))
  {
    var d := Dashed(s, InvalidChars);
    forall i | 0 <= i < |s| ensures IsGoSpace(d[i]) <==> IsGoSpace(s[i]) {
      if s[i] in InvalidChars {
        assert d[i] == '-';
        assert !IsGoSpace(s[i]);
      }
    }
  }

  /** Sanitising twice is the same as sanitising once. */
  lemma SanitizeIdempotent(s: string)
    ensures SanitizePath(SanitizePath(s)) == SanitizePath(s)
  {
    var r := SanitizePath(s);
    ReplacePass(r);
    assert Dashed(r, InvalidChars) == r;
    TrimIdentity(r, IsGoSpace);
    CollapseFixed(r);
  }

  /** Sanitising introduces no character other than a hyphen or a space. */
  lemma SanitizeChars(s: string)
    ensures forall c :: c in SanitizePath(s) ==> c in s || c == '-' || c == ' '
  {
    ReplacePass(s);
    var d := ReplaceEach(s, InvalidChars);
    TrimSpaceChars(d);
    CollapseChars(TrimSpace(d));
    forall c | c in d ensures c in s || c == '-' {
      var i :| 0 <= i < |d| && d[i] == c;
    }
  }
}
