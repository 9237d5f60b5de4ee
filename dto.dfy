/**
 * Response shaping in the HTTP server (backend/internal/server/dto.go): the
 * download view sent to clients and the redaction of provider settings.
 */
module Dto {
  import opened Strings
  import Models

  // ---------------------------------------------------------------------------
  // toDTO / toDTOList
  // ---------------------------------------------------------------------------

  /** The download as the API shows it; the status is its stored string. */
  datatype DownloadDto = DownloadDto(
    id: string,
    title: string,
    author: string,
    series: string,
    status: string,
    progress: real,
    organizedPath: string,
    errorMessage: string,
    completedAt: Option<int>,
    organizedAt: Option<int>)

  /** toDTO: each shown field is the record's own; the status is shown as
      its stored name. The creation time is not modelled. */
  function ToDto(d: Models.Download): (r: DownloadDto)
    ensures r.id == d.id && r.title == d.title && r.author == d.author && r.series == d.series
    ensures r.status == Models.StatusName(d.status) && r.progress == d.progress
    ensures r.organizedPath == d.organizedPath && r.errorMessage == d.errorMessage
    ensures r.completedAt == d.completedAt && r.organizedAt == d.organizedAt
  {
    DownloadDto(d.id, d.title, d.author, d.series, Models.StatusName(d.status), d.progress,
                d.organizedPath, d.errorMessage, d.completedAt, d.organizedAt)
  }

  /** The status a stored string names, if any. */
  function ParseStatus(s: string): (r: Option<Models.Status>)
    ensures r.Some? ==> Models.StatusName(r.value) == s
  {
    if s == "queued" then Some(Models.Queued)
    else if s == "downloading" then Some(Models.Downloading)
    else if s == "completed" then Some(Models.Completed)
    else if s == "organizing" then Some(Models.Organizing)
    else if s == "organized" then Some(Models.Organized)
    else if s == "failed" then Some(Models.Failed)
    else None
  }

  /** The view loses nothing it shows: the status string reads back as the
      record's status, and the other shown fields are the record's own. */
  lemma DtoRoundTrip(d: Models.Download)
    ensures ParseStatus(ToDto(d).status) == Some(d.status)
    ensures ToDto(d).id == d.id && ToDto(d).title == d.title && ToDto(d).author == d.author &&
            ToDto(d).series == d.series && ToDto(d).organizedPath == d.organizedPath &&
            ToDto(d).errorMessage == d.errorMessage
  {
    match d.status
    case Queued =>
    case Downloading =>
      assert "downloading" != "queued";
    case Completed =>
      assert "completed" != "queued" && "completed" != "downloading";
    case Organizing =>
      assert "organizing" != "queued" && "organizing" != "downloading" && "organizing" != "completed";
    case Organized =>
      assert "organized" != "queued" && "organized" != "downloading" && "organized" != "completed" &&
             "organized" != "organizing";
    case Failed =>
      assert "failed" != "queued" && "failed" != "downloading" && "failed" != "completed" &&
             "failed" != "organizing" && "failed" != "organized";
  }

  /** Two records with different statuses never show the same status string. */
  lemma StatusNameInjective(a: Models.Status, b: Models.Status)
    ensures Models.StatusName(a) == Models.StatusName(b) ==> a == b
  {
    var d := Models.Download([], [], [], [], [], [], [], [], [], [], a, 0.0, [], [], [], None, None);
    DtoRoundTrip(d);
    DtoRoundTrip(d.(status := b));
  }

  /** toDTOList: one view per record, in the same order. */
  method ToDtoList(downloads: seq<Models.Download>) returns (dtos: seq<DownloadDto>)
    ensures |dtos| == |downloads|
    ensures forall i :: 0 <= i < |downloads| ==> dtos[i] == ToDto(downloads[i])
  {
    dtos := [];
    for i := 0 to |downloads|
      invariant |dtos| == i
      invariant forall j :: 0 <= j < i ==> dtos[j] == ToDto(downloads[j])
    {
      dtos := dtos + [ToDto(downloads[i])];
    }
  }

  // ---------------------------------------------------------------------------
  // sanitizeConfig
  // ---------------------------------------------------------------------------

  /** A provider setting as decoded from JSON (arrays and objects left out). */
  datatype Json = JString(s: string) | JNumber(n: real) | JBool(b: bool) | JNull

  const Redacted: string := "***REDACTED***"

  /** The key fragments that mark a setting as secret, as written in the source. */
  const SensitiveKeys: seq<string> := ["secret", "apiKey", "password", "token"]

  /** Whether the key, lower-cased as Go lower-cases it, contains one of
      the fragments, lower-cased the same way. */
  predicate IsSensitive(key: string)
  {
    exists j :: 0 <= j < |SensitiveKeys| && Contains(GoLower(key), GoLower(SensitiveKeys[j]))
  }

  /** The four fragments as matched: a key is sensitive exactly when its
      lowering contains "secret", "apikey", "password" or "token". */
  lemma SensitiveFragments(key: string)
    ensures IsSensitive(key) <==>
              Contains(GoLower(key), "secret") || Contains(GoLower(key), "apikey") ||
              Contains(GoLower(key), "password") || Contains(GoLower(key), "token")
  {
    LowerApiKey();
    LowerToken();
    LowerSecretPassword();
    var lower := GoLower(key);
    if IsSensitive(key) {
      var j :| 0 <= j < |SensitiveKeys| && Contains(lower, GoLower(SensitiveKeys[j]));
      assert j == 0 || j == 1 || j == 2 || j == 3;
    } else {
      assert !Contains(lower, GoLower(SensitiveKeys[0])) && !Contains(lower, GoLower(SensitiveKeys[1]));
      assert !Contains(lower, GoLower(SensitiveKeys[2])) && !Contains(lower, GoLower(SensitiveKeys[3]));
    }
  }

  /** The redacted settings: the same keys, secrets replaced, the rest kept. */
  function RedactAll(config: map<string, Json>): (r: map<string, Json>)
    ensures r.Keys == config.Keys
  {
    map k | k in config :: if IsSensitive(k) then JString(Redacted) else config[k]
  }

  /** The scan over the fragments, stopping at the first match. */
  method KeyIsSensitive(key: string) returns (sensitive: bool)
    ensures sensitive == IsSensitive(key)
  {
    sensitive := false;
    var lower := GoLower(key);
    var j := 0;
    while j < |SensitiveKeys|
      invariant 0 <= j <= |SensitiveKeys|
      invariant !sensitive
      invariant forall m :: 0 <= m < j ==> !Contains(lower, GoLower(SensitiveKeys[m]))
    {
      if Contains(lower, GoLower(SensitiveKeys[j])) {
        sensitive := true;
        assert 0 <= j < |SensitiveKeys| && Contains(GoLower(key), GoLower(SensitiveKeys[j]));
        return;
      }
      j := j + 1;
    }
    assert forall m :: 0 <= m < |SensitiveKeys| ==> !Contains(GoLower(key), GoLower(SensitiveKeys[m]));
  }

  /** sanitizeConfig: a fresh map built over the keys in an unspecified order. */
  method SanitizeConfig(config: map<string, Json>) returns (sanitized: map<string, Json>)
    ensures sanitized == RedactAll(config)
  {
    sanitized := map[];
    var remaining := config.Keys;
    while remaining != {}
      invariant remaining <= config.Keys
      invariant sanitized.Keys == config.Keys - remaining
      invariant forall k :: k in sanitized ==> sanitized[k] == RedactAll(config)[k]
      decreases |remaining|
    {
      var key :| key in remaining;
      var sensitive := KeyIsSensitive(key);
      if sensitive {
        sanitized := sanitized[key := JString(Redacted)];
      } else {
        sanitized := sanitized[key := config[key]];
      }
      remaining := remaining - {key};
    }
  }

  /** Redaction is idempotent: a redacted value stays redacted, and kept
      values are kept again. */
  lemma RedactIdempotent(config: map<string, Json>)
    ensures RedactAll(RedactAll(config)) == RedactAll(config)
  {
  }

  /** The match ignores letter case as Go's strings.ToLower does: a key
      holding "apikey" in any mixture of cases ("APIKEY", "x_ApiKey"), or
      with U+0130 in place of the 'i', is redacted. */
  lemma ApiKeyCaseInsensitive(key: string, i: nat)
    requires i + 6 <= |key| && GoLower(key[i..i + 6]) == "apikey"
    ensures IsSensitive(key)
  {
    LowerApiKey();
    FragmentCaseInsensitive(key, i, 1);
  }

  /** A piece of the key that lowers to a lowered fragment makes the key
      sensitive. */
  lemma FragmentCaseInsensitive(key: string, i: nat, j: nat)
    requires j < |SensitiveKeys| && i + |SensitiveKeys[j]| <= |key|
    requires GoLower(key[i..i + |SensitiveKeys[j]|]) == GoLower(SensitiveKeys[j])
    ensures IsSensitive(key)
  {
    var fragment, lower := GoLower(SensitiveKeys[j]), GoLower(key);
    var n := |fragment|;
    var piece := key[i..i + n];
    forall m | 0 <= m < n ensures lower[i + m] == fragment[m] {
      assert piece[m] == key[i + m];
    }
    assert lower[i..i + n] == fragment;
    assert OccursAt(lower, fragment, i);
    assert IndexOf(lower, fragment).Some?;
  }

  /** The second fragment, lower-cased. */
  lemma LowerApiKey()
    ensures GoLower(SensitiveKeys[1]) == "apikey"
  {
    var k := SensitiveKeys[1];
    assert k == "apiKey";
    assert k[3] == 'K' && GoLowerChar('K') == 'k';
    forall m | 0 <= m < 6 ensures GoLower(k)[m] == "apikey"[m] {}
  }

  /** The last fragment, lower-cased. */
  lemma LowerToken()
    ensures GoLower(SensitiveKeys[3]) == "token"
  {
    assert SensitiveKeys[3] == "token";
    GoLowerOfLower("token");
  }

  /** The first and third fragments are already lower case. */
  lemma LowerSecretPassword()
    ensures GoLower(SensitiveKeys[0]) == "secret" && GoLower(SensitiveKeys[2]) == "password"
  {
    assert SensitiveKeys[0] == "secret" && SensitiveKeys[2] == "password";
    GoLowerOfLower("secret");
    GoLowerOfLower("password");
  }

  /** The two non-ASCII capitals that lower to ASCII letters make a key
      sensitive as Go reads it: "ap\u0130Key" holds "apikey" and
      "to\u212Aen" holds "token" once lowered. */
  lemma NonAsciiCapitalsRedacted()
    ensures IsSensitive("ap\U{0130}Key")
    ensures IsSensitive("to\U{212A}en")
  {
    DottedCapitalI();
    KelvinSign();
  }

  lemma DottedCapitalI()
    ensures IsSensitive("ap\U{0130}Key")
  {
    var a := "ap\U{0130}Key";
    forall m | 0 <= m < 6 ensures GoLower(a[0..6])[m] == "apikey"[m] {
      assert a[0..6][m] == a[m];
    }
    ApiKeyCaseInsensitive(a, 0);
  }

  lemma KelvinSign()
    ensures IsSensitive("to\U{212A}en")
  {
    var t := "to\U{212A}en";
    LowerToken();
    forall m | 0 <= m < 5 ensures GoLower(t[0..5])[m] == "token"[m] {
      assert t[0..5][m] == t[m];
    }
    FragmentCaseInsensitive(t, 0, 3);
  }
}
