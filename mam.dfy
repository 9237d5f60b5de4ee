/**
 * The MyAnonamouse search provider (backend/internal/search/providers/mam.go),
 * without its HTTP exchanges: the tag list parser, the search parameters as
 * query values, and how one decoded torrent of the tracker's answer becomes a
 * search result. The JSON decoding of the answer, of the author list and of
 * the series list is not modelled; the decoded torrents are the input.
 */
module Mam {
  import opened Strings
  import SearchModels
  import Lists

  // ---------------------------------------------------------------------------
  // parseTags
  // ---------------------------------------------------------------------------

  /** The trimmed pieces that are not blank, in their order. */
  function KeepTrimmed(pieces: seq<string>): (r: seq<string>)
    ensures |r| <= |pieces|
    ensures forall j :: 0 <= j < |r| ==> r[j] != []
  {
    if pieces == [] then []
    else
      var t := TrimSpace(pieces[|pieces| - 1]);
      KeepTrimmed(pieces[..|pieces| - 1]) + (if t != [] then [t] else [])
  }

  /** The tags a comma-separated list names: each non-empty, already
      trimmed, and free of commas. */
  function Tags(s: string): (r: seq<string>)
    ensures forall j :: 0 <= j < |r| ==> WellFormedTag(r[j])
  {
    KeptWellFormed(Split(s, ","));
    KeepTrimmed(Split(s, ","))
  }

  /** parseTags: "" is answered at once; otherwise the comma-separated
      pieces are trimmed and the blank ones dropped. */
  method ParseTags(tagsStr: string) returns (result: seq<string>)
    ensures result == Tags(tagsStr)
  {
    if tagsStr == [] {
      assert Split(tagsStr, ",") == [[]];
      return [];
    }
    var tags := Split(tagsStr, ",");
    result := [];
    for i := 0 to |tags|
      invariant result == KeepTrimmed(tags[..i])
    {
      KeepTrimmedStep(tags, i);
      var trimmed := TrimSpace(tags[i]);
      if trimmed != [] {
        result := result + [trimmed];
      }
    }
    assert tags[..|tags|] == tags;
  }

  /** The pieces kept from one more piece. */
  lemma KeepTrimmedStep(pieces: seq<string>, i: nat)
    requires i < |pieces|
    ensures KeepTrimmed(pieces[..i + 1]) ==
            KeepTrimmed(pieces[..i]) + (if TrimSpace(pieces[i]) != [] then [TrimSpace(pieces[i])] else [])
  {
    assert pieces[..i + 1][..i] == pieces[..i];
    assert pieces[..i + 1][i] == pieces[i];
  }

  /** A comma-free piece that is not blank gives exactly one tag. */
  lemma OneTag(s: string)
    requires ',' !in s && TrimSpace(s) != []
    ensures Tags(s) == [TrimSpace(s)]
  {
    assert Split(s, ",") == [s];
  }

  /** A piece without the separator holds no separator character. */
  lemma NoCommaChar(s: string)
    requires !Contains(s, ",")
    ensures ',' !in s
  {
    if ',' in s {
      var i :| 0 <= i < |s| && s[i] == ',';
      assert s[i..i + 1] == ",";
      assert OccursAt(s, ",", i);
    }
  }

  /** A trimmed piece is a slice of the piece. */
  lemma TrimmedIsSlice(s: string) returns (a: nat, b: nat)
    ensures a <= b <= |s| && TrimSpace(s) == s[a..b]
  {
    var l := TrimLeft(s, IsGoSpace);
    var r := TrimRight(l, IsGoSpace);
    a := |s| - |l|;
    b := a + |r|;
  }

  lemma {:induction false} KeptWellFormed(pieces: seq<string>)
    requires forall i :: 0 <= i < |pieces| ==> !Contains(pieces[i], ",")
    ensures forall j :: 0 <= j < |KeepTrimmed(pieces)| ==> WellFormedTag(KeepTrimmed(pieces)[j])
  {
    if pieces != [] {
      var init := pieces[..|pieces| - 1];
      var last := pieces[|pieces| - 1];
      KeptWellFormed(init);
      if TrimSpace(last) != [] {
        TrimmedWellFormed(last);
      }
    }
  }

  /** A tag as parseTags produces it. */
  predicate WellFormedTag(t: string)
  {
    t != [] && TrimSpace(t) == t && ',' !in t
  }

  /** One piece, trimmed. */
  lemma TrimmedWellFormed(piece: string)
    requires !Contains(piece, ",") && TrimSpace(piece) != []
    ensures WellFormedTag(TrimSpace(piece))
  {
    var t := TrimSpace(piece);
    TrimTwice(piece);
    NoCommaChar(piece);
    var a, b := TrimmedIsSlice(piece);
    SliceKeepsAbsent(piece, a, b, ',');
  }

  /** Trimming trimmed text changes nothing. */
  lemma TrimTwice(s: string)
    ensures TrimSpace(TrimSpace(s)) == TrimSpace(s)
  {
    TrimBoth(s, IsGoSpace);
    TrimIdentity(TrimSpace(s), IsGoSpace);
  }

  /** A slice holds no character its text does not hold. */
  lemma SliceKeepsAbsent(s: string, a: nat, b: nat, c: char)
    requires a <= b <= |s| && c !in s
    ensures c !in s[a..b]
  {
    forall i | 0 <= i < b - a ensures s[a..b][i] != c {
      assert s[a..b][i] == s[a + i];
    }
  }

  /** The first comma of a comma-joined text is the head's first comma, or
      the joining one. */
  lemma FirstComma(a: string, b: string)
    ensures IndexOf(a + "," + b, ",") == if IndexOf(a, ",").Some? then IndexOf(a, ",") else Some(|a|)
  {
    var s := a + "," + b;
    assert OccursAt(s, ",", |a|) by {
      assert s[|a|..|a| + 1] == ",";
    }
    forall j | 0 <= j < |a|
      ensures OccursAt(s, ",", j) <==> OccursAt(a, ",", j)
    {
      assert s[j..j + 1] == [s[j]] && a[j..j + 1] == [a[j]];
    }
  }

  /** Split at the first separator. */
  lemma SplitFirst(s: string, k: nat)
    requires IndexOf(s, ",") == Some(k)
    ensures k < |s| && Split(s, ",") == [s[..k]] + Split(s[k + 1..], ",")
  {
  }

  /** Splitting at a comma that joins two texts splits each text on its own. */
  lemma {:induction false} SplitAtComma(a: string, b: string)
    ensures Split(a + "," + b, ",") == Split(a, ",") + Split(b, ",")
    decreases |a|
  {
    match IndexOf(a, ",")
    case None =>
      SplitAtOnlyComma(a, b);
    case Some(k) =>
      SplitFirst(a, k);
      SplitAtComma(a[k + 1..], b);
      SplitAtLaterComma(a, b, k);
  }

  /** The joining comma is the first one. */
  lemma SplitAtOnlyComma(a: string, b: string)
    requires IndexOf(a, ",").None?
    ensures Split(a + "," + b, ",") == Split(a, ",") + Split(b, ",")
  {
    var s := a + "," + b;
    FirstComma(a, b);
    SplitFirst(s, |a|);
    assert s[..|a|] == a && s[|a| + 1..] == b;
  }

  /** The head holds a comma of its own, and the rest after it splits as claimed. */
  lemma SplitAtLaterComma(a: string, b: string, k: nat)
    requires IndexOf(a, ",") == Some(k) && k < |a|
    requires Split(a[k + 1..] + "," + b, ",") == Split(a[k + 1..], ",") + Split(b, ",")
    ensures Split(a + "," + b, ",") == Split(a, ",") + Split(b, ",")
  {
    var s := a + "," + b;
    FirstComma(a, b);
    SplitFirst(s, k);
    SplitFirst(a, k);
    JoinedSlices(a, b, k);
    ConsAssoc(a[..k], Split(a[k + 1..], ","), Split(b, ","));
  }

  lemma JoinedSlices(a: string, b: string, k: nat)
    requires k < |a|
    ensures (a + "," + b)[..k] == a[..k] && (a + "," + b)[k + 1..] == a[k + 1..] + "," + b
  {
  }

  lemma Assoc<T>(a: seq<T>, b: seq<T>, c: seq<T>)
    ensures (a + b) + c == a + (b + c)
  {
  }

  lemma ConsAssoc<T>(x: T, p: seq<T>, q: seq<T>)
    ensures [x] + (p + q) == ([x] + p) + q
  {
  }

  /** Filtering distributes over concatenation. */
  lemma {:induction false} KeepTrimmedConcat(p: seq<string>, q: seq<string>)
    ensures KeepTrimmed(p + q) == KeepTrimmed(p) + KeepTrimmed(q)
    decreases |q|
  {
    if q == [] {
      assert p + q == p;
    } else {
      var q' := q[..|q| - 1];
      var t := TrimSpace(q[|q| - 1]);
      var tail := if t != [] then [t] else [];
      assert (p + q)[..|p + q| - 1] == p + q';
      assert (p + q)[|p + q| - 1] == q[|q| - 1];
      assert KeepTrimmed(p + q) == KeepTrimmed(p + q') + tail;
      KeepTrimmedConcat(p, q');
      ConcatAssoc(KeepTrimmed(p), KeepTrimmed(q'), tail);
    }
  }

  lemma ConcatAssoc(a: seq<string>, b: seq<string>, c: seq<string>)
    ensures (a + b) + c == a + (b + c)
  {
  }

  /** Tags keep their input order: the tags of a list with a comma-joined
      tail are the tags of the head followed by the tags of the tail. */
  lemma TagsConcat(a: string, b: string)
    ensures Tags(a + "," + b) == Tags(a) + Tags(b)
  {
    SplitAtComma(a, b);
    KeepTrimmedConcat(Split(a, ","), Split(b, ","));
  }

  // ---------------------------------------------------------------------------
  // formatSearchParamsToURLValues
  // ---------------------------------------------------------------------------

  datatype TorrentSearchParams = TorrentSearchParams(
    mainCat: seq<int>,
    searchIn: seq<string>,
    searchType: string,
    text: string,
    startNumber: int,
    hash: string)

  datatype SearchParams = SearchParams(
    description: bool,
    dlLink: bool,
    isbn: bool,
    perPage: int,
    torrents: seq<TorrentSearchParams>)

  /** The bare flags written before the encoded values, in their fixed order. */
  const FlagNames: seq<string> := ["description&", "dlLink&", "isbn&"]

  /** The names whose flag is set, concatenated in table order. */
  function Selected(names: seq<string>, flags: seq<bool>): (r: string)
    requires |flags| == |names|
  {
    if names == [] then [] else (if flags[0] then names[0] else []) + Selected(names[1..], flags[1..])
  }

  /** The flag prefix of the query string. */
  method FlagPrefix(p: SearchParams) returns (urlParams: string)
    ensures urlParams == Selected(FlagNames, [p.description, p.dlLink, p.isbn])
  {
    urlParams := [];
    if p.description {
      urlParams := urlParams + "description&";
    }
    if p.dlLink {
      urlParams := urlParams + "dlLink&";
    }
    if p.isbn {
      urlParams := urlParams + "isbn&";
    }
    SelectedFlags(p.description, p.dlLink, p.isbn);
  }

  /** The three names, each written when its flag is set. */
  lemma SelectedFlags(description: bool, dlLink: bool, isbn: bool)
    ensures Selected(FlagNames, [description, dlLink, isbn]) ==
            (if description then "description&" else []) + (if dlLink then "dlLink&" else []) +
            (if isbn then "isbn&" else [])
  {
    var f := [description, dlLink, isbn];
    assert FlagNames[1..] == ["dlLink&", "isbn&"] && FlagNames[1..][1..] == ["isbn&"];
    assert f[1..] == [dlLink, isbn] && f[1..][1..] == [isbn];
    assert Selected(["isbn&"], [isbn]) == (if isbn then "isbn&" else []) + Selected([], []);
  }

  /** Reading the flags back from the front of a text, name by name in table order. */
  function ReadNames(names: seq<string>, s: string): (flags: seq<bool>)
    ensures |flags| == |names|
  {
    if names == [] then []
    else
      var has := HasPrefix(s, names[0]);
      [has] + ReadNames(names[1..], if has then s[|names[0]|..] else s)
  }

  /** The prefix names exactly the set flags: reading it back gives them. */
  lemma FlagPrefixReadsBack(description: bool, dlLink: bool, isbn: bool)
    ensures ReadNames(FlagNames, Selected(FlagNames, [description, dlLink, isbn])) == [description, dlLink, isbn]
  {
    var tail := FlagNames[1..];
    assert tail == ["dlLink&", "isbn&"] && tail[1..] == ["isbn&"];
    SelectedFlags(description, dlLink, isbn);
    var last := if isbn then "isbn&" else [];
    var rest := (if dlLink then "dlLink&" else []) + last;
    assert !HasPrefix(last, "dlLink&") by {
      if isbn { assert last[1] == 's'; }
    }
    assert !HasPrefix(rest, "description&") by {
      if rest != [] { assert rest[0] == 'i' || rest[1] == 'l'; }
    }
    ReadOne(["isbn&"], isbn, []);
    assert last + [] == last;
    ReadOne(tail, dlLink, last);
    ReadOne(FlagNames, description, rest);
  }

  /** Reading one name back: the name is seen exactly when it was written,
      as long as what follows does not itself start with it. */
  lemma ReadOne(names: seq<string>, flag: bool, rest: string)
    requires names != [] && !HasPrefix(rest, names[0])
    ensures ReadNames(names, (if flag then names[0] else []) + rest) == [flag] + ReadNames(names[1..], rest)
  {
    var s := (if flag then names[0] else []) + rest;
    if flag {
      assert s[..|names[0]|] == names[0];
      assert s[|names[0]|..] == rest;
    } else {
      assert s == rest;
    }
  }

  /** url.Values: every key holds a list of values. */
  type Values = map<string, seq<string>>

  /** The values under a key, none when it is absent (url.Values' index). */
  function Get(v: Values, key: string): seq<string>
  {
    if key in v then v[key] else []
  }

  /** url.Values.Set and url.Values.Add. */
  function SetValue(v: Values, key: string, x: string): Values
  {
    v[key := [x]]
  }

  function AddValue(v: Values, key: string, x: string): (r: Values)
    ensures Get(r, key) == Get(v, key) + [x]
  {
    v[key := Get(v, key) + [x]]
  }

  const PerPageKey: string := "perpage"
  const MainCatKey: string := "tor[main_cat][]"
  const SearchTypeKey: string := "tor[searchType]"
  const TextKey: string := "tor[text]"
  const StartNumberKey: string := "tor[startNumber]"
  const HashKey: string := "tor[hash]"

  function SearchInKey(field: string): (k: string)
  {
    "tor[srchIn][" + field + "]"
  }

  /** Each value added under one key, in order. */
  function AddAll(v: Values, key: string, xs: seq<string>): (r: Values)
  {
    if xs == [] then v else AddValue(AddAll(v, key, xs[..|xs| - 1]), key, xs[|xs| - 1])
  }

  /** One value added under each of the keys, in order. */
  function AddUnder(v: Values, keys: seq<string>, x: string): (r: Values)
  {
    if keys == [] then v else AddValue(AddUnder(v, keys[..|keys| - 1], x), keys[|keys| - 1], x)
  }

  function FormatAll(ns: seq<int>): (r: seq<string>)
    ensures |r| == |ns| && forall i :: 0 <= i < |ns| ==> r[i] == FormatInt(ns[i])
  {
    seq(|ns|, i requires 0 <= i < |ns| => FormatInt(ns[i]))
  }

  function SearchInKeys(fields: seq<string>): (r: seq<string>)
    ensures |r| == |fields| && forall i :: 0 <= i < |fields| ==> r[i] == SearchInKey(fields[i])
  {
    seq(|fields|, i requires 0 <= i < |fields| => SearchInKey(fields[i]))
  }

  /** What one element of the `tor` array contributes: the list-valued
      keys first, then the single-valued ones. */
  function TorrentValues(v: Values, t: TorrentSearchParams): Values
  {
    SetFields(AddUnder(AddAll(v, MainCatKey, FormatAll(t.mainCat)), SearchInKeys(t.searchIn), "true"), t)
  }

  /** The single-valued keys, each set when its field is given. */
  function SetFields(v: Values, t: TorrentSearchParams): Values
  {
    var v3 := if t.searchType != [] then SetValue(v, SearchTypeKey, t.searchType) else v;
    var v4 := if t.text != [] then SetValue(v3, TextKey, t.text) else v3;
    var v5 := if t.startNumber > 0 then SetValue(v4, StartNumberKey, FormatInt(t.startNumber)) else v4;
    if t.hash != [] then SetValue(v5, HashKey, t.hash) else v5
  }

  function FoldTorrents(v: Values, ts: seq<TorrentSearchParams>): Values
  {
    if ts == [] then v else TorrentValues(FoldTorrents(v, ts[..|ts| - 1]), ts[|ts| - 1])
  }

  /** The values before the `tor` array. */
  function BaseValues(p: SearchParams): Values
  {
    if p.perPage > 0 then SetValue(map[], PerPageKey, FormatInt(p.perPage)) else map[]
  }

  /** The values the encoder is given. */
  function ValuesOf(p: SearchParams): Values
  {
    FoldTorrents(BaseValues(p), p.torrents)
  }

  /** The loop over the `tor` array. */
  method FormatValues(p: SearchParams) returns (values: Values)
    ensures values == ValuesOf(p)
  {
    values := map[];
    if p.perPage > 0 {
      values := SetValue(values, PerPageKey, FormatInt(p.perPage));
    }
    var ts := p.torrents;
    for i := 0 to |ts|
      invariant values == FoldTorrents(BaseValues(p), ts[..i])
    {
      assert ts[..i + 1][..i] == ts[..i];
      values := AddTorrent(values, ts[i]);
    }
    assert ts[..|ts|] == ts;
  }

  /** One element of the `tor` array. */
  method AddTorrent(v: Values, t: TorrentSearchParams) returns (values: Values)
    ensures values == TorrentValues(v, t)
  {
    values := v;
    if |t.mainCat| > 0 {
      values := AddCategories(values, t.mainCat);
    } else {
      assert FormatAll(t.mainCat) == [];
    }
    if |t.searchIn| > 0 {
      values := AddSearchIn(values, t.searchIn);
    } else {
      assert SearchInKeys(t.searchIn) == [];
    }
    ghost var listed := values;
    assert listed == AddUnder(AddAll(v, MainCatKey, FormatAll(t.mainCat)), SearchInKeys(t.searchIn), "true");
    if t.searchType != [] {
      values := SetValue(values, SearchTypeKey, t.searchType);
    }
    if t.text != [] {
      values := SetValue(values, TextKey, t.text);
    }
    if t.startNumber > 0 {
      values := SetValue(values, StartNumberKey, FormatInt(t.startNumber));
    }
    if t.hash != [] {
      values := SetValue(values, HashKey, t.hash);
    }
    assert values == SetFields(listed, t);
  }

  method AddCategories(v: Values, mainCat: seq<int>) returns (values: Values)
    ensures values == AddAll(v, MainCatKey, FormatAll(mainCat))
  {
    values := v;
    var cats := FormatAll(mainCat);
    for j := 0 to |mainCat|
      invariant values == AddAll(v, MainCatKey, cats[..j])
    {
      AddAllStep(v, MainCatKey, cats, j);
      values := AddValue(values, MainCatKey, FormatInt(mainCat[j]));
    }
    assert cats[..|mainCat|] == cats;
  }

  method AddSearchIn(v: Values, searchIn: seq<string>) returns (values: Values)
    ensures values == AddUnder(v, SearchInKeys(searchIn), "true")
  {
    values := v;
    var keys := SearchInKeys(searchIn);
    for j := 0 to |searchIn|
      invariant values == AddUnder(v, keys[..j], "true")
    {
      AddUnderStep(v, keys, "true", j);
      values := AddValue(values, SearchInKey(searchIn[j]), "true");
    }
    assert keys[..|searchIn|] == keys;
  }

  /** One more value of the list, added after the ones before it. */
  lemma AddAllStep(v: Values, key: string, xs: seq<string>, j: nat)
    requires j < |xs|
    ensures AddAll(v, key, xs[..j + 1]) == AddValue(AddAll(v, key, xs[..j]), key, xs[j])
  {
    assert xs[..j + 1][..j] == xs[..j];
  }

  /** One more key of the list, written after the ones before it. */
  lemma AddUnderStep(v: Values, keys: seq<string>, x: string, j: nat)
    requires j < |keys|
    ensures AddUnder(v, keys[..j + 1], x) == AddValue(AddUnder(v, keys[..j], x), keys[j], x)
  {
    assert keys[..j + 1][..j] == keys[..j];
  }

  // Which keys each step writes.

  /** The key of a searched field is never one of the fixed keys. */
  lemma SearchInKeyDistinct(field: string)
    ensures SearchInKey(field) != PerPageKey && SearchInKey(field) != MainCatKey && SearchInKey(field) != TextKey
  {
    var k := SearchInKey(field);
    assert k[0] == 't' && k[4] == 's' && k[5] == 'r';
    assert PerPageKey[0] == 'p' && MainCatKey[4] == 'm' && TextKey[4] == 't';
  }

  /** Entries under other keys are kept by AddAll. */
  lemma {:induction false} AddAllKeeps(v: Values, key: string, xs: seq<string>, k: string)
    requires k != key
    ensures (k in AddAll(v, key, xs)) == (k in v)
    ensures k in v ==> AddAll(v, key, xs)[k] == v[k]
  {
    if xs != [] {
      AddAllKeeps(v, key, xs[..|xs| - 1], k);
    }
  }

  /** AddAll appends the values, in order, to those already under the key. */
  lemma {:induction false} AddAllAppends(v: Values, key: string, xs: seq<string>)
    ensures Get(AddAll(v, key, xs), key) == Get(v, key) + xs
  {
    if xs != [] {
      AddAllAppends(v, key, xs[..|xs| - 1]);
      assert xs[..|xs| - 1] + [xs[|xs| - 1]] == xs;
    } else {
      assert Get(v, key) + xs == Get(v, key);
    }
  }

  /** Entries under keys that are not searched fields are kept by AddUnder. */
  lemma {:induction false} AddUnderKeeps(v: Values, fields: seq<string>, k: string)
    requires forall f :: SearchInKey(f) != k
    ensures (k in AddUnder(v, SearchInKeys(fields), "true")) == (k in v)
    ensures k in v ==> AddUnder(v, SearchInKeys(fields), "true")[k] == v[k]
  {
    if fields != [] {
      var init := fields[..|fields| - 1];
      assert SearchInKeys(fields)[..|fields| - 1] == SearchInKeys(init);
      AddUnderKeeps(v, init, k);
    }
  }

  /** The single-valued fields never touch the page size or the categories. */
  lemma SetFieldsKeeps(v: Values, t: TorrentSearchParams, k: string)
    requires k == PerPageKey || k == MainCatKey
    ensures (k in SetFields(v, t)) == (k in v)
    ensures k in v ==> SetFields(v, t)[k] == v[k]
  {
    assert k[4] == 'a' || k[4] == 'm';
    assert SearchTypeKey[4] == 's' && TextKey[4] == 't' && StartNumberKey[4] == 's' && HashKey[4] == 'h';
  }

  /** The `tor` array never writes the page size. */
  lemma {:induction false} FoldKeepsPerPage(v: Values, ts: seq<TorrentSearchParams>)
    ensures (PerPageKey in FoldTorrents(v, ts)) == (PerPageKey in v)
    ensures PerPageKey in v ==> FoldTorrents(v, ts)[PerPageKey] == v[PerPageKey]
  {
    if ts != [] {
      var t := ts[|ts| - 1];
      var before := FoldTorrents(v, ts[..|ts| - 1]);
      FoldKeepsPerPage(v, ts[..|ts| - 1]);
      assert PerPageKey != MainCatKey by { assert PerPageKey[0] == 'p' && MainCatKey[0] == 't'; }
      AddAllKeeps(before, MainCatKey, FormatAll(t.mainCat), PerPageKey);
      var v1 := AddAll(before, MainCatKey, FormatAll(t.mainCat));
      forall f ensures SearchInKey(f) != PerPageKey { SearchInKeyDistinct(f); }
      AddUnderKeeps(v1, t.searchIn, PerPageKey);
      SetFieldsKeeps(AddUnder(v1, SearchInKeys(t.searchIn), "true"), t, PerPageKey);
    }
  }

  /** perpage is sent only for a positive page size, as its decimal text. */
  lemma PerPageOnlyWhenPositive(p: SearchParams)
    ensures PerPageKey in ValuesOf(p) <==> p.perPage > 0
    ensures p.perPage > 0 ==> ValuesOf(p)[PerPageKey] == [FormatInt(p.perPage)]
  {
    FoldKeepsPerPage(BaseValues(p), p.torrents);
  }

  /** The categories of the elements of the `tor` array, in order. */
  function Categories(ts: seq<TorrentSearchParams>): seq<int>
  {
    if ts == [] then [] else Categories(ts[..|ts| - 1]) + ts[|ts| - 1].mainCat
  }

  lemma FormatAllConcat(a: seq<int>, b: seq<int>)
    ensures FormatAll(a + b) == FormatAll(a) + FormatAll(b)
  {
  }

  /** One element appends its categories. */
  lemma TorrentAppendsCategories(v: Values, t: TorrentSearchParams)
    ensures Get(TorrentValues(v, t), MainCatKey) == Get(v, MainCatKey) + FormatAll(t.mainCat)
  {
    AddAllAppends(v, MainCatKey, FormatAll(t.mainCat));
    var v1 := AddAll(v, MainCatKey, FormatAll(t.mainCat));
    forall f ensures SearchInKey(f) != MainCatKey { SearchInKeyDistinct(f); }
    AddUnderKeeps(v1, t.searchIn, MainCatKey);
    SetFieldsKeeps(AddUnder(v1, SearchInKeys(t.searchIn), "true"), t, MainCatKey);
  }

  /** Every category of every element is sent under tor[main_cat][], in order. */
  lemma {:induction false} CategoriesInOrder(v: Values, ts: seq<TorrentSearchParams>)
    ensures Get(FoldTorrents(v, ts), MainCatKey) == Get(v, MainCatKey) + FormatAll(Categories(ts))
  {
    if ts == [] {
      assert FormatAll(Categories(ts)) == [];
      assert Get(v, MainCatKey) + [] == Get(v, MainCatKey);
    } else {
      var init := ts[..|ts| - 1];
      var t := ts[|ts| - 1];
      CategoriesInOrder(v, init);
      TorrentAppendsCategories(FoldTorrents(v, init), t);
      assert Categories(ts) == Categories(init) + t.mainCat;
      FormatAllConcat(Categories(init), t.mainCat);
      Assoc(Get(v, MainCatKey), FormatAll(Categories(init)), FormatAll(t.mainCat));
    }
  }

  /** So the encoded categories are exactly those of the parameters. */
  lemma MainCategoriesSent(p: SearchParams)
    ensures Get(ValuesOf(p), MainCatKey) == FormatAll(Categories(p.torrents))
  {
    CategoriesInOrder(BaseValues(p), p.torrents);
    assert MainCatKey !in BaseValues(p) by { assert PerPageKey[0] == 'p' && MainCatKey[0] == 't'; }
  }

  /** The text of the last element that gives one. */
  function LastText(ts: seq<TorrentSearchParams>): Option<string>
  {
    if ts == [] then None
    else if ts[|ts| - 1].text != [] then Some(ts[|ts| - 1].text)
    else LastText(ts[..|ts| - 1])
  }

  /** One element sets tor[text] when it gives a text and keeps it otherwise. */
  lemma TorrentText(v: Values, t: TorrentSearchParams)
    ensures t.text != [] ==> TextKey in TorrentValues(v, t) && TorrentValues(v, t)[TextKey] == [t.text]
    ensures t.text == [] ==> (TextKey in TorrentValues(v, t)) == (TextKey in v)
    ensures t.text == [] && TextKey in v ==> TorrentValues(v, t)[TextKey] == v[TextKey]
  {
    TextKeyDistinct();
    AddAllKeeps(v, MainCatKey, FormatAll(t.mainCat), TextKey);
    var v1 := AddAll(v, MainCatKey, FormatAll(t.mainCat));
    forall f ensures SearchInKey(f) != TextKey { SearchInKeyDistinct(f); }
    AddUnderKeeps(v1, t.searchIn, TextKey);
    SetFieldsText(AddUnder(v1, SearchInKeys(t.searchIn), "true"), t);
  }

  /** tor[text] is none of the other fixed keys. */
  lemma TextKeyDistinct()
    ensures TextKey != MainCatKey && TextKey != SearchTypeKey && TextKey != StartNumberKey && TextKey != HashKey
  {
    assert TextKey[4] == 't' && MainCatKey[4] == 'm' && SearchTypeKey[4] == 's' && HashKey[4] == 'h';
    assert TextKey[5] == 'e' && StartNumberKey[5] == 't';
  }

  /** SetFields writes tor[text] from the text alone. */
  lemma SetFieldsText(v: Values, t: TorrentSearchParams)
    requires TextKey != SearchTypeKey && TextKey != StartNumberKey && TextKey != HashKey
    ensures t.text != [] ==> TextKey in SetFields(v, t) && SetFields(v, t)[TextKey] == [t.text]
    ensures t.text == [] ==> (TextKey in SetFields(v, t)) == (TextKey in v)
    ensures t.text == [] && TextKey in v ==> SetFields(v, t)[TextKey] == v[TextKey]
  {
  }

  /** tor[text] holds the text of the last element that gives one, and is
      absent when none does: Set overwrites, so earlier texts are lost. */
  lemma {:induction false} TextLastWins(v: Values, ts: seq<TorrentSearchParams>)
    requires TextKey !in v
    ensures TextKey in FoldTorrents(v, ts) <==> LastText(ts).Some?
    ensures LastText(ts).Some? ==> FoldTorrents(v, ts)[TextKey] == [LastText(ts).value]
  {
    if ts != [] {
      TextLastWins(v, ts[..|ts| - 1]);
      TorrentText(FoldTorrents(v, ts[..|ts| - 1]), ts[|ts| - 1]);
    }
  }

  /** The parameters the provider's search sends: description and download
      links requested, 100 results per page, audiobooks only, searching the
      title, author, series and narrator for the query. */
  function ProviderParams(query: string): SearchParams
  {
    SearchParams(true, true, false, 100,
      [TorrentSearchParams([CategoryAudiobooks], ["title", "author", "series", "narrator"], "all", query, 0, [])])
  }

  const CategoryAudiobooks: int := 13

  /** The provider's query string starts with the two requested flags, asks
      for 100 results, and carries the query only when it is not empty. */
  lemma ProviderQuery(query: string)
    ensures Selected(FlagNames, [ProviderParams(query).description, ProviderParams(query).dlLink, ProviderParams(query).isbn]) ==
            "description&dlLink&"
    ensures Get(ValuesOf(ProviderParams(query)), PerPageKey) == ["100"]
    ensures Get(ValuesOf(ProviderParams(query)), MainCatKey) == ["13"]
    ensures TextKey in ValuesOf(ProviderParams(query)) <==> query != []
    ensures query != [] ==> ValuesOf(ProviderParams(query))[TextKey] == [query]
  {
    SelectedFlags(true, true, false);
    ProviderPages(query);
    ProviderCategory(query);
    ProviderText(query);
  }

  lemma ProviderPages(query: string)
    ensures Get(ValuesOf(ProviderParams(query)), PerPageKey) == ["100"]
  {
    PerPageOnlyWhenPositive(ProviderParams(query));
    assert FormatInt(100) == "100" by {
      assert Digits(10) == Digits(1) + [DigitChar(0)];
    }
  }

  lemma ProviderCategory(query: string)
    ensures Get(ValuesOf(ProviderParams(query)), MainCatKey) == ["13"]
  {
    var p := ProviderParams(query);
    MainCategoriesSent(p);
    assert Categories(p.torrents) == [13] by {
      assert p.torrents[..0] == [];
    }
    assert FormatInt(13) == "13";
  }

  lemma ProviderText(query: string)
    ensures TextKey in ValuesOf(ProviderParams(query)) <==> query != []
    ensures query != [] ==> ValuesOf(ProviderParams(query))[TextKey] == [query]
  {
    var p := ProviderParams(query);
    assert TextKey !in BaseValues(p) by { assert PerPageKey[0] == 'p' && TextKey[0] == 't'; }
    TextLastWins(BaseValues(p), p.torrents);
    assert p.torrents[..0] == [];
  }

  // ---------------------------------------------------------------------------
  // Search: one decoded torrent of the answer becomes a search result
  // ---------------------------------------------------------------------------

  /** A torrent of the tracker's answer, after JSON decoding. `author` and
      `series` stand for what formatAuthorInfo and parseSeriesInfo make of the
      raw author and series fields; `description` and `dl` may be null. */
  datatype TorrentDetails = TorrentDetails(
    id: int,
    added: string,
    author: string,
    series: seq<SearchModels.SeriesInfo>,
    categoryName: string,
    description: Option<string>,
    dl: Option<string>,
    fileType: string,
    flVip: int,
    free: int,
    languageCode: string,
    leechers: int,
    numFiles: int,
    seeders: int,
    size: string,
    tags: string,
    timesCompleted: int,
    title: string,
    vip: int)

  const DownloadPath: string := "/tor/download.php?tid="

  /** The download link for a torrent id: the tracker's download page,
      followed by the id. */
  function DownloadLink(baseUrl: string, id: int): (r: string)
    ensures HasPrefix(r, baseUrl + DownloadPath)
  {
    baseUrl + DownloadPath + FormatInt(id)
  }

  /** The text after the download page is the id in decimal, and reads back
      as the id. */
  lemma DownloadLinkId(baseUrl: string, id: int)
    requires -0x8000_0000_0000_0000 <= id < 0x8000_0000_0000_0000
    ensures Atoi(DownloadLink(baseUrl, id)[|baseUrl + DownloadPath|..]) == Some(id)
  {
    assert DownloadLink(baseUrl, id)[|baseUrl + DownloadPath|..] == FormatInt(id);
    FormatIntRoundTrip(id);
  }

  /** The result for one torrent: the flags are set only by the value 1, the
      download link only when the torrent has a non-empty `dl` token, the
      description only when it is not null. */
  function ToResult(baseUrl: string, t: TorrentDetails): (r: SearchModels.SearchResult)
    ensures r.freeleech <==> t.free == 1
    ensures r.freeleechVip <==> t.flVip == 1
    ensures r.vip <==> t.vip == 1
    ensures r.torrentUrl != [] <==> t.dl.Some? && t.dl.value != []
    ensures r.torrentUrl != [] ==> r.torrentUrl == DownloadLink(baseUrl, t.id)
    ensures r.provider == SearchModels.MamName && r.magnetLink == []
  {
    SearchModels.SearchResult(
      id := FormatInt(t.id),
      title := t.title,
      author := t.author,
      torrentUrl := if t.dl.Some? && t.dl.value != [] then DownloadLink(baseUrl, t.id) else [],
      magnetLink := [],
      provider := SearchModels.MamName,
      series := t.series,
      category := t.categoryName,
      fileType := t.fileType,
      language := t.languageCode,
      tags := Tags(t.tags),
      description := if t.description.Some? then t.description.value else [],
      added := t.added,
      size := t.size,
      seeders := t.seeders,
      leechers := t.leechers,
      numFiles := t.numFiles,
      timesCompleted := t.timesCompleted,
      freeleech := t.free == 1,
      freeleechVip := t.flVip == 1,
      vip := t.vip == 1)
  }

  /** One result per torrent, in order: the result at each position is the
      conversion of the torrent at that position. */
  function ToResults(baseUrl: string, data: seq<TorrentDetails>): (r: seq<SearchModels.SearchResult>)
    ensures |r| == |data|
    ensures forall i :: 0 <= i < |data| ==> r[i] == ToResult(baseUrl, data[i])
  {
    Lists.Map(data, t => ToResult(baseUrl, t))
  }

  /** The conversion loop of Search. */
  method ConvertResults(baseUrl: string, data: seq<TorrentDetails>) returns (results: seq<SearchModels.SearchResult>)
    ensures |results| == |data|
    ensures results == ToResults(baseUrl, data)
  {
    results := [];
    for i := 0 to |data|
      invariant results == ToResults(baseUrl, data[..i])
    {
      var result := ConvertOne(baseUrl, data[i]);
      ToResultsStep(baseUrl, data, i);
      results := results + [result];
    }
    assert data[..|data|] == data;
  }

  /** The results of one more torrent are the earlier results and its own. */
  lemma ToResultsStep(baseUrl: string, data: seq<TorrentDetails>, i: nat)
    requires i < |data|
    ensures ToResults(baseUrl, data[..i + 1]) == ToResults(baseUrl, data[..i]) + [ToResult(baseUrl, data[i])]
  {
    Lists.MapPrefix(data, t => ToResult(baseUrl, t), i);
  }

  /** The body of the conversion loop, with the tags parsed by parseTags. */
  method ConvertOne(baseUrl: string, t: TorrentDetails) returns (result: SearchModels.SearchResult)
    ensures result == ToResult(baseUrl, t)
  {
    var tags := ParseTags(t.tags);
    result := ToResult(baseUrl, t).(tags := tags);
  }

  /** The result's id is the torrent's id in decimal, and reads back as it. */
  lemma ResultIdReadsBack(baseUrl: string, t: TorrentDetails)
    requires -0x8000_0000_0000_0000 <= t.id < 0x8000_0000_0000_0000
    ensures Atoi(ToResult(baseUrl, t).id) == Some(t.id)
  {
    FormatIntRoundTrip(t.id);
  }
}
