/**
 * The form validators of frontend/src/utils/validators.ts. Strings are
 * measured in UTF-16 code units, as JavaScript's `.length` measures them;
 * numbers are reals.
 */
module Validators {
  import opened Strings

  /** A JavaScript string in a boolean position: defined and non-empty. */
  predicate TruthyString(v: Option<string>)
  {
    v.Some? && v.value != []
  }

  /** hasAtLeastOne: `values.some(v => v && v.length >= minLength)`. */
  function HasAtLeastOne(values: seq<Option<string>>, minLength: int): (ok: bool)
    ensures ok <==> exists i :: 0 <= i < |values| && TruthyString(values[i]) && Utf16Len(values[i].value) >= minLength
  {
    if values == [] then false
    else if TruthyString(values[0]) && Utf16Len(values[0].value) >= minLength then true
    else
      var rest := HasAtLeastOne(values[1..], minLength);
      assert forall i :: 0 < i < |values| ==> values[i] == values[1..][i - 1];
      rest
  }

  /** The default minimum length of hasAtLeastOne. */
  const DefaultMinLength: int := 1

  /** isRequired: `!!value && value.trim().length > 0`. */
  function IsRequired(value: Option<string>): (ok: bool)
    ensures ok <==> value.Some? && exists i :: 0 <= i < |value.value| && !IsJsSpace(value.value[i])
  {
    if value.None? || value.value == [] then false
    else
      JsTrimEmpty(value.value);
      JsTrim(value.value) != []
  }

  /** minLength: `value.length >= min`, counted in UTF-16 code units, so a
      character outside the Basic Multilingual Plane counts twice. */
  function MinLength(value: string, min: int): (ok: bool)
    ensures |value| >= min ==> ok
    ensures ok ==> 2 * |value| >= min
    ensures (forall i :: 0 <= i < |value| ==> value[i] as int < 0x10000) ==> (ok <==> |value| >= min)
  {
    Utf16Len(value) >= min
  }

  /** isInRange: `value >= min && value <= max`, a closed interval. */
  function IsInRange(value: real, min: real, max: real): (ok: bool)
    ensures ok ==> min <= value <= max && min <= max
    ensures min <= value <= max ==> ok
  {
    value >= min && value <= max
  }

  /** The language of `/^[^\s@]+@[^\s@]+\.[^\s@]+$/`: no whitespace, one
      `@` after a non-empty local part, and a `.` after it with at least one
      character between the two and at least one after the dot. */
  predicate EmailShape(e: string)
  {
    (forall k :: 0 <= k < |e| ==> !IsJsSpace(e[k])) &&
    exists i, j :: 1 <= i && i + 2 <= j && j + 2 <= |e| && e[i] == '@' && e[j] == '.' &&
                   (forall k :: 0 <= k < |e| && k != i ==> e[k] != '@')
  }

  /** isValidEmail, by scanning: the first `@`, nothing after it that is
      an `@`, and a dot strictly inside the domain. */
  function IsValidEmail(e: string): (ok: bool)
    ensures ok <==> EmailShape(e)
  {
    if !NoneSatisfy(e, IsJsSpace) then false
    else match IndexOfChar(e, '@')
      case None => false
      case Some(i) =>
        if i < 1 || i + 3 > |e| || '@' in e[i + 1..] || '.' !in e[i + 2..|e| - 1] then
          EmailRejected(e, i);
          false
        else
          EmailAccepted(e, i);
          true
  }

  /** Why the scan's acceptances are right. */
  lemma EmailAccepted(e: string, i: nat)
    requires NoneSatisfy(e, IsJsSpace)
    requires i < |e| && e[i] == '@' && '@' !in e[..i]
    requires 1 <= i && i + 3 <= |e| && '@' !in e[i + 1..] && '.' in e[i + 2..|e| - 1]
    ensures EmailShape(e)
  {
    var d :| 0 <= d < |e[i + 2..|e| - 1]| && e[i + 2..|e| - 1][d] == '.';
    var j := i + 2 + d;
    assert e[j] == '.';
    forall k | 0 <= k < |e| && k != i ensures e[k] != '@' {
      if k < i {
        assert e[k] == e[..i][k];
      } else {
        assert e[k] == e[i + 1..][k - i - 1];
      }
    }
  }

  /** Why the scan's rejections are right: every email of the shape passes
      each test the scan makes after finding the first `@`. */
  lemma EmailRejected(e: string, i: nat)
    requires i < |e| && e[i] == '@' && '@' !in e[..i]
    ensures EmailShape(e) ==> 1 <= i && i + 3 <= |e| && '@' !in e[i + 1..] && '.' in e[i + 2..|e| - 1]
  {
    if EmailShape(e) {
      var i', j :| 1 <= i' && i' + 2 <= j && j + 2 <= |e| && e[i'] == '@' && e[j] == '.' &&
                   (forall k :: 0 <= k < |e| && k != i' ==> e[k] != '@');
      assert i' == i;
      assert e[i + 2..|e| - 1][j - i - 2] == '.';
      var rest := e[i + 1..];
      forall d | 0 <= d < |rest| ensures rest[d] != '@' {
        assert rest[d] == e[i + 1 + d];
      }
    }
  }

  // ---------------------------------------------------------------------------
  // How the validators relate
  // ---------------------------------------------------------------------------

  /** One value passes hasAtLeastOne exactly when it is non-empty and long
      enough; with the default minimum, when it is non-empty. A value
      isRequired accepts passes hasAtLeastOne with the default minimum. */
  lemma AtLeastOneSingle(v: Option<string>, min: int)
    ensures HasAtLeastOne([v], min) <==> TruthyString(v) && MinLength(v.value, min)
    ensures HasAtLeastOne([v], DefaultMinLength) <==> TruthyString(v)
    ensures IsRequired(v) ==> HasAtLeastOne([v], DefaultMinLength)
  {
    if v.Some? && v.value != [] {
      assert Utf16Len(v.value) >= 1;
    }
  }

  /** A list passes when any part of it does. */
  lemma {:induction false} AtLeastOneConcat(a: seq<Option<string>>, b: seq<Option<string>>, min: int)
    ensures HasAtLeastOne(a + b, min) <==> HasAtLeastOne(a, min) || HasAtLeastOne(b, min)
  {
    if HasAtLeastOne(a + b, min) {
      var i :| 0 <= i < |a + b| && TruthyString((a + b)[i]) && Utf16Len((a + b)[i].value) >= min;
      if i >= |a| {
        assert (a + b)[i] == b[i - |a|];
      }
    }
    if HasAtLeastOne(a, min) {
      var i :| 0 <= i < |a| && TruthyString(a[i]) && Utf16Len(a[i].value) >= min;
      assert (a + b)[i] == a[i];
    }
    if HasAtLeastOne(b, min) {
      var i :| 0 <= i < |b| && TruthyString(b[i]) && Utf16Len(b[i].value) >= min;
      assert (a + b)[|a| + i] == b[i];
    }
  }

  /** A looser minimum accepts more, and a string with only whitespace is
      not required-valid. */
  lemma MinLengthLaws(value: string, min: int, looser: int)
    requires looser <= min
    ensures MinLength(value, min) ==> MinLength(value, looser)
    ensures MinLength(value, 0) && (value == [] ==> !MinLength(value, 1))
    ensures (forall i :: 0 <= i < |value| ==> IsJsSpace(value[i])) ==> !IsRequired(Some(value))
  {
  }

  /** The range is inclusive at both ends and empty when min > max. */
  lemma RangeLaws(value: real, min: real, max: real)
    ensures min <= max ==> IsInRange(min, min, max) && IsInRange(max, min, max)
    ensures min > max ==> !IsInRange(value, min, max)
    ensures IsInRange(value, min, max) <==> min <= value && value <= max
  {
  }

  /** Witnesses of the email language. */
  lemma EmailExamples()
    ensures IsValidEmail("a@b.c")
    ensures !IsValidEmail("@b.c") && !IsValidEmail("a@.c") && !IsValidEmail("a@b.") && !IsValidEmail("a@bc")
    ensures !IsValidEmail("a@b@c.d") && !IsValidEmail("a b@c.d")
  {
    assert EmailShape("a@b.c") by {
      assert "a@b.c"[1] == '@' && "a@b.c"[3] == '.';
    }
    assert !IsJsSpace(' ') ==> false;
    assert "a b@c.d"[1] == ' ';
  }
}
