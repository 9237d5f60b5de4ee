/**
 * Request validation in the HTTP server (backend/internal/server/validation.go):
 * the download request checks, the UUID format and the configuration key
 * format. Lengths are Go's `len`, the number of UTF-8 bytes.
 */
module Validation {
  import opened Strings

  /** The body of a create-download request (backend/internal/server/request_types.go). */
  datatype CreateDownloadRequest = CreateDownloadRequest(
    title: string,
    author: string,
    series: string,
    seriesNumber: string,
    torrentId: string,
    torrentURL: string,
    magnetLink: string,
    category: string)

  datatype RequestError =
    | TitleRequired
    | AuthorRequired
    | SourceRequired
    | TitleTooLong
    | AuthorTooLong
    | SeriesTooLong

  const MaxTitleBytes: nat := 500
  const MaxAuthorBytes: nat := 200
  const MaxSeriesBytes: nat := 200

  /** A request that passes every check. */
  predicate WellFormed(req: CreateDownloadRequest)
  {
    TrimSpace(req.title) != [] && TrimSpace(req.author) != [] &&
    (req.torrentURL != [] || req.magnetLink != []) &&
    Utf8Len(req.title) <= MaxTitleBytes && Utf8Len(req.author) <= MaxAuthorBytes &&
    Utf8Len(req.series) <= MaxSeriesBytes
  }

  /** validateDownloadRequest: the checks run in a fixed order and the first
      failing one is reported. A torrent id alone is not a source. */
  function ValidateDownloadRequest(req: CreateDownloadRequest): (r: Option<RequestError>)
    ensures r.None? <==> WellFormed(req)
    ensures r == Some(TitleRequired) <==> TrimSpace(req.title) == []
    ensures r == Some(AuthorRequired) <==> TrimSpace(req.title) != [] && TrimSpace(req.author) == []
    ensures r == Some(SourceRequired) <==>
              TrimSpace(req.title) != [] && TrimSpace(req.author) != [] && req.torrentURL == [] && req.magnetLink == []
    ensures r == Some(TitleTooLong) ==> Utf8Len(req.title) > MaxTitleBytes
    ensures r == Some(AuthorTooLong) ==> Utf8Len(req.author) > MaxAuthorBytes && Utf8Len(req.title) <= MaxTitleBytes
    ensures r == Some(SeriesTooLong) ==>
              Utf8Len(req.series) > MaxSeriesBytes && Utf8Len(req.author) <= MaxAuthorBytes &&
              Utf8Len(req.title) <= MaxTitleBytes
  {
    if TrimSpace(req.title) == [] then Some(TitleRequired)
    else if TrimSpace(req.author) == [] then Some(AuthorRequired)
    else if req.torrentURL == [] && req.magnetLink == [] then Some(SourceRequired)
    else if Utf8Len(req.title) > MaxTitleBytes then Some(TitleTooLong)
    else if Utf8Len(req.author) > MaxAuthorBytes then Some(AuthorTooLong)
    else if Utf8Len(req.series) > MaxSeriesBytes then Some(SeriesTooLong)
    else None
  }

  /** The message each check reports. */
  function RequestErrorText(e: RequestError): (r: string)
    ensures |r| > 0
  {
    match e
    case TitleRequired => "title is required and cannot be empty"
    case AuthorRequired => "author is required and cannot be empty"
    case SourceRequired => "either torrent_url or magnet_link is required"
    case TitleTooLong => "title must be 500 characters or less"
    case AuthorTooLong => "author must be 200 characters or less"
    case SeriesTooLong => "series must be 200 characters or less"
  }

  /** Each check has its own message, so the text tells which one failed. */
  lemma RequestErrorTextInjective(a: RequestError, b: RequestError)
    ensures RequestErrorText(a) == RequestErrorText(b) <==> a == b
  {
    // the six messages differ in length or in their first letter
    if RequestErrorText(a) == RequestErrorText(b) {
      assert |RequestErrorText(a)| == |RequestErrorText(b)| && RequestErrorText(a)[0] == RequestErrorText(b)[0];
    }
  }

  /** A title of only whitespace is rejected as missing, whatever else the
      request holds. */
  lemma BlankTitleRejected(req: CreateDownloadRequest)
    requires forall i :: 0 <= i < |req.title| ==> IsGoSpace(req.title[i])
    ensures ValidateDownloadRequest(req) == Some(TitleRequired)
  {
    TrimSpaceEmpty(req.title);
  }

  /** The limits count bytes: an ASCII title of exactly 500 characters passes
      the length check, and one of 501 does not. */
  lemma TitleLimitIsInclusive(req: CreateDownloadRequest)
    requires forall i :: 0 <= i < |req.title| ==> req.title[i] as int < 0x80
    ensures ValidateDownloadRequest(req) != Some(TitleTooLong) || |req.title| > 500
    ensures TrimSpace(req.title) != [] && TrimSpace(req.author) != [] && req.torrentURL != [] && |req.title| > 500 ==>
              ValidateDownloadRequest(req) == Some(TitleTooLong)
  {
  }

  // ---------------------------------------------------------------------------
  // validateUUID
  // ---------------------------------------------------------------------------

  /** One position of the version-4 UUID pattern. */
  datatype CharClass = Hex | Dash | Exactly(c: char) | Variant

  predicate InClass(c: char, k: CharClass)
  {
    match k
    case Hex => IsLowerHex(c)
    case Dash => c == '-'
    case Exactly(e) => c == e
    case Variant => c == '8' || c == '9' || c == 'a' || c == 'b'
  }

  function Repeat(k: CharClass, n: nat): (p: seq<CharClass>)
    ensures |p| == n && forall i :: 0 <= i < n ==> p[i] == k
  {
    if n == 0 then [] else [k] + Repeat(k, n - 1)
  }

  /** The anchored pattern, position by position: 8 hex digits, then 4, then
      "4" and 3, then one of 8, 9, a, b and 3, then 12, separated by dashes. */
  function UuidPattern(): (p: seq<CharClass>)
    ensures |p| == 36
  {
    Repeat(Hex, 8) + [Dash] + Repeat(Hex, 4) + [Dash] + [Exactly('4')] + Repeat(Hex, 3) + [Dash] +
    [Variant] + Repeat(Hex, 3) + [Dash] + Repeat(Hex, 12)
  }

  /** Whether a fixed-length pattern of character classes matches the whole text. */
  predicate Matches(s: string, p: seq<CharClass>)
  {
    |s| == |p| && forall i :: 0 <= i < |s| ==> InClass(s[i], p[i])
  }

  /** The version-4 layout described by position: 36 characters, dashes at 8,
      13, 18 and 23, a '4' at 14, one of 8, 9, a, b at 19, and lower-case hex
      digits everywhere else. */
  predicate UuidLayout(id: string)
  {
    |id| == 36 &&
    (forall i :: 0 <= i < 36 ==> (i == 8 || i == 13 || i == 18 || i == 23 <==> id[i] == '-')) &&
    id[14] == '4' && (id[19] == '8' || id[19] == '9' || id[19] == 'a' || id[19] == 'b') &&
    (forall i :: 0 <= i < 36 && i != 8 && i != 13 && i != 18 && i != 23 && i != 14 && i != 19 ==>
       IsLowerHex(id[i]))
  }

  /** validateUUID: an id is accepted exactly when it has the layout. */
  function ValidateUuid(id: string): (ok: bool)
    ensures ok <==> UuidLayout(id)
  {
    UuidShape(id);
    Matches(id, UuidPattern())
  }

  /** The anchored pattern matches exactly the ids of the layout. */
  lemma UuidShape(id: string)
    ensures Matches(id, UuidPattern()) <==> UuidLayout(id)
  {
    var p := UuidPattern();
    assert forall i :: 0 <= i < 8 ==> p[i] == Hex;
    assert p[8] == Dash;
    assert forall i :: 9 <= i < 13 ==> p[i] == Hex;
    assert p[13] == Dash && p[14] == Exactly('4');
    assert forall i :: 15 <= i < 18 ==> p[i] == Hex;
    assert p[18] == Dash && p[19] == Variant;
    assert forall i :: 20 <= i < 23 ==> p[i] == Hex;
    assert p[23] == Dash;
    assert forall i :: 24 <= i < 36 ==> p[i] == Hex;
  }

  /** Upper-case hex digits are refused. */
  lemma UuidRejectsUpperCase(id: string, i: nat)
    requires i < |id| && IsAsciiUpper(id[i])
    ensures !ValidateUuid(id)
  {
  }

  // ---------------------------------------------------------------------------
  // validateConfigKey
  // ---------------------------------------------------------------------------

  datatype KeyError = KeyEmpty | KeyBadChar

  predicate IsKeyChar(c: char)
  {
    IsAsciiLower(c) || IsAsciiUpper(c) || IsAsciiDigit(c) || c == '.' || c == '_' || c == '-'
  }

  /** validateConfigKey: a blank key is reported as empty; otherwise every
      character must be a letter, digit, dot, underscore or hyphen. */
  function ValidateConfigKey(key: string): (r: Option<KeyError>)
    ensures r == Some(KeyEmpty) <==> forall i :: 0 <= i < |key| ==> IsGoSpace(key[i])
  {
    TrimSpaceEmpty(key);
    if TrimSpace(key) == [] then Some(KeyEmpty)
    else if !(|key| > 0 && forall i :: 0 <= i < |key| ==> IsKeyChar(key[i])) then Some(KeyBadChar)
    else None
  }

  /** A key is accepted exactly when it is non-empty and made only of
      letters, digits, dots, underscores and hyphens. */
  lemma ConfigKeyAccepted(key: string)
    ensures ValidateConfigKey(key).None? <==> |key| > 0 && forall i :: 0 <= i < |key| ==> IsKeyChar(key[i])
  {
    TrimSpaceEmpty(key);
    var allKeyChars := |key| > 0 && forall i :: 0 <= i < |key| ==> IsKeyChar(key[i]);
    if TrimSpace(key) == [] {
      if |key| > 0 {
        KeyCharNotSpace(key[0]);
      }
      assert !allKeyChars;
    } else {
      assert ValidateConfigKey(key) == if !allKeyChars then Some(KeyBadChar) else None;
    }
  }

  lemma KeyCharNotSpace(c: char)
    ensures IsKeyChar(c) ==> !IsGoSpace(c)
  {
  }
}
