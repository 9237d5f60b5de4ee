/**
 * The parts of the qBittorrent client that are decided locally
 * (backend/internal/qbittorrent/client.go): the hash taken from a magnet
 * link, the choice of hash after adding a torrent, the empty-upload guard,
 * and how a file listing becomes file paths. Every HTTP exchange is an
 * oracle: its outcome is a parameter.
 */
module QBit {
  import opened Strings

  datatype TorrentFile = TorrentFile(name: string, path: string, size: int)

  /** One entry of the remote file listing: a name relative to the save path, and a size. */
  datatype ListedFile = ListedFile(name: string, size: int)

  datatype ClientError =
    | AuthFailed                // Login failed
    | NoSource                  // neither a magnet link nor a torrent URL
    | EmptyTorrentData
    | RemoteFailed              // the add request (or the upload) failed
    | HashUnknown               // added, but no hash could be derived

  const MagnetPrefix: string := "magnet:?"
  const HashMarker: string := "xt=urn:btih:"

  // ---------------------------------------------------------------------------
  // extractHashFromMagnet
  // ---------------------------------------------------------------------------

  function ExtractHashFromMagnet(magnet: string): (r: string)
    ensures !HasPrefix(magnet, MagnetPrefix) ==> r == []
    ensures !Contains(magnet, HashMarker) ==> r == []
    ensures '&' !in r
  {
    if !HasPrefix(magnet, MagnetPrefix) then []
    else
      var parts := Split(magnet, HashMarker);
      if |parts| < 2 then [] else CutAtChar(parts[1], '&')
  }

  /** The first element of a split is the text before the first separator. */
  lemma SplitHead(s: string, sep: string)
    requires |sep| > 0
    ensures IndexOf(s, sep).None? ==> Split(s, sep) == [s]
    ensures IndexOf(s, sep).Some? ==>
              var k := IndexOf(s, sep).value;
              |Split(s, sep)| >= 2 && Split(s, sep)[0] == s[..k] &&
              Split(s, sep)[1] == Split(s[k + |sep|..], sep)[0]
  {
  }

  /** The hash is the text after the first marker, cut at the next marker or the
      first '&', whichever comes first: it never holds the marker or '&', and it
      stops only at the end of the text, at '&', or where a marker starts. */
  lemma ExtractHashSpec(magnet: string)
    requires HasPrefix(magnet, MagnetPrefix) && Contains(magnet, HashMarker)
    ensures var k := IndexOf(magnet, HashMarker).value;
            var after := magnet[k + |HashMarker|..];
            var r := ExtractHashFromMagnet(magnet);
            HasPrefix(after, r) && '&' !in r && !Contains(r, HashMarker) &&
            (r == after || after[|r|] == '&' || HasPrefix(after[|r|..], HashMarker))
  {
    var k := IndexOf(magnet, HashMarker).value;
    var after := magnet[k + |HashMarker|..];
    SplitHead(magnet, HashMarker);
    var seg := Split(after, HashMarker)[0];
    assert ExtractHashFromMagnet(magnet) == CutAtChar(seg, '&');
    FirstSegment(after, HashMarker);
    CutFirstSegment(after, seg, HashMarker);
  }

  /** Cutting the first segment at '&' keeps its properties, and it stops at
      '&' or where the segment stops. */
  lemma CutFirstSegment(after: string, seg: string, sep: string)
    requires HasPrefix(after, seg) && !Contains(seg, sep) && (seg == after || HasPrefix(after[|seg|..], sep))
    ensures var r := CutAtChar(seg, '&');
            HasPrefix(after, r) && '&' !in r && !Contains(r, sep) &&
            (r == after || after[|r|] == '&' || HasPrefix(after[|r|..], sep))
  {
    var r := CutAtChar(seg, '&');
    PrefixKeepsAbsence(seg, r, sep);
    assert after[..|seg|] == seg;
    assert after[..|r|] == seg[..|r|];
    if r != seg {
      assert after[|r|] == seg[|r|];
    } else {
      assert after[|r|..] == after[|seg|..];
    }
  }

  /** The first part of a split is a prefix free of the separator, followed by
      the end of the text or by the separator. */
  lemma FirstSegment(s: string, sep: string)
    requires |sep| > 0
    ensures var seg := Split(s, sep)[0];
            HasPrefix(s, seg) && !Contains(seg, sep) && (seg == s || HasPrefix(s[|seg|..], sep))
  {
    SplitHead(s, sep);
    match IndexOf(s, sep)
    case None =>
    case Some(j) =>
      NoOccurrenceInPrefix(s, sep, j);
      assert s[j..][..|sep|] == s[j..j + |sep|];
  }

  /** A prefix of a text that does not contain `sub` does not contain it either. */
  lemma PrefixKeepsAbsence(s: string, p: string, sub: string)
    requires HasPrefix(s, p) && !Contains(s, sub)
    ensures !Contains(p, sub)
  {
    if Contains(p, sub) {
      var i := IndexOf(p, sub).value;
      assert p[i..i + |sub|] == s[i..i + |sub|];
      assert OccursAt(s, sub, i);
    }
  }

  // ---------------------------------------------------------------------------
  // AddTorrent / AddTorrentFromFile
  // ---------------------------------------------------------------------------

  /** AddTorrent after its requests: the magnet link is preferred as the source,
      and the hash can only come from a magnet link. `loginOk` and `addOk` are
      the outcomes of the two HTTP exchanges. */
  function AddTorrent(magnetLink: string, torrentURL: string, loginOk: bool, addOk: bool): (r: Result<string, ClientError>)
    ensures !loginOk ==> r == Err(AuthFailed)
    ensures loginOk && magnetLink == [] && torrentURL == [] ==> r == Err(NoSource)
    ensures r.Ok? ==> addOk && magnetLink != [] && r.value == ExtractHashFromMagnet(magnetLink) && r.value != []
    ensures loginOk && addOk && magnetLink != [] && ExtractHashFromMagnet(magnetLink) != [] ==>
              r == Ok(ExtractHashFromMagnet(magnetLink))
  {
    if !loginOk then Err(AuthFailed)
    else if magnetLink == [] && torrentURL == [] then Err(NoSource)
    else if !addOk then Err(RemoteFailed)
    else if magnetLink != [] && ExtractHashFromMagnet(magnetLink) != [] then Ok(ExtractHashFromMagnet(magnetLink))
    else Err(HashUnknown)
  }

  /** A torrent added by URL alone is accepted remotely but reported as an error,
      because no hash can be derived from it. */
  lemma UrlOnlyAddNeverYieldsHash(torrentURL: string, loginOk: bool, addOk: bool)
    requires torrentURL != []
    ensures loginOk && addOk ==> AddTorrent([], torrentURL, loginOk, addOk) == Err(HashUnknown)
    ensures AddTorrent([], torrentURL, loginOk, addOk).Err?
  {
  }

  /** AddTorrentFromFile: empty data is rejected before any request is made;
      otherwise the result is what the upload-and-lookup exchange reports. */
  function AddTorrentFromFile(torrentData: seq<bv8>, upload: Result<string, ClientError>): (r: Result<string, ClientError>)
    ensures |torrentData| == 0 ==> r == Err(EmptyTorrentData)
    ensures |torrentData| > 0 ==> r == upload
  {
    if |torrentData| == 0 then Err(EmptyTorrentData) else upload
  }

  // ---------------------------------------------------------------------------
  // GetTorrentFiles path composition
  // ---------------------------------------------------------------------------

  /** The loop that turns the listing into files under the torrent's save path. */
  method ComposeFiles(savePath: string, listing: seq<ListedFile>) returns (files: seq<TorrentFile>)
    ensures |files| == |listing|
    ensures forall i :: 0 <= i < |files| ==>
              files[i].name == listing[i].name && files[i].size == listing[i].size &&
              files[i].path == savePath + "/" + listing[i].name
  {
    files := [];
    var i := 0;
    while i < |listing|
      invariant 0 <= i <= |listing| && |files| == i
      invariant forall j :: 0 <= j < i ==>
                  files[j] == TorrentFile(listing[j].name, savePath + "/" + listing[j].name, listing[j].size)
    {
      files := files + [TorrentFile(listing[i].name, savePath + "/" + listing[i].name, listing[i].size)];
      i := i + 1;
    }
  }
}
