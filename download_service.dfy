/**
 * The download service (backend/internal/downloads/service.go): creating a
 * download from one of its three sources, cancelling it, and organizing it on
 * request. The torrent client and the tracker are oracles: the outcome of each
 * exchange is a parameter, and a request the service makes is returned so
 * that its arguments can be stated.
 */
module DownloadService {
  import opened Strings
  import opened Store
  import Models
  import QBit
  import Organization
  import Template
  import Monitor

  // ---------------------------------------------------------------------------
  // extractTorrentIDFromURL
  // ---------------------------------------------------------------------------

  const TidMarker: string := "tid="

  datatype IdError = TidMissing | InvalidId

  /** The text taken as the torrent id: after the first "tid=", up to the next
      "tid=" or the first '&'. */
  function IdText(url: string): (t: string)
    requires Contains(url, TidMarker)
  {
    CutAtChar(Split(url, TidMarker)[1], '&')
  }

  function ExtractTorrentId(url: string): (r: Result<int, IdError>)
    ensures r == Err(TidMissing) <==> !Contains(url, TidMarker)
    ensures Contains(url, TidMarker) ==>
              (r.Ok? <==> Atoi(IdText(url)).Some?) &&
              (r.Ok? ==> r.value == Atoi(IdText(url)).value)
  {
    var parts := Split(url, TidMarker);
    QBit.SplitHead(url, TidMarker);
    if |parts| < 2 then Err(TidMissing)
    else
      match Atoi(CutAtChar(parts[1], '&'))
      case Some(n) => Ok(n)
      case None => Err(InvalidId)
  }

  /** Where the id text comes from: it starts right after the first "tid=",
      holds neither '&' nor another "tid=", and ends at the end of the URL, at
      '&', or where a further "tid=" starts. */
  lemma IdTextSpec(url: string)
    requires Contains(url, TidMarker)
    ensures var k := IndexOf(url, TidMarker).value;
            var after := url[k + |TidMarker|..];
            var t := IdText(url);
            HasPrefix(after, t) && '&' !in t && !Contains(t, TidMarker) &&
            (t == after || after[|t|] == '&' || HasPrefix(after[|t|..], TidMarker))
  {
    var k := IndexOf(url, TidMarker).value;
    var after := url[k + |TidMarker|..];
    QBit.SplitHead(url, TidMarker);
    var seg := Split(after, TidMarker)[0];
    QBit.FirstSegment(after, TidMarker);
    assert IdText(url) == CutAtChar(seg, '&');
    QBit.CutFirstSegment(after, seg, TidMarker);
  }

  // ---------------------------------------------------------------------------
  // CreateDownload
  // ---------------------------------------------------------------------------

  const MamDownloadPath: string := "/tor/download.php"

  /** Where the torrent is taken from. */
  datatype Source = FromBytes | FromMam | FromLink

  /** Torrent bytes win, then a tracker download URL, then the magnet link or URL. */
  function SourceOf(d: Models.Download): (s: Source)
    ensures s == FromBytes <==> |d.torrentBytes| > 0
    ensures s == FromMam <==> |d.torrentBytes| == 0 && Contains(d.torrentURL, MamDownloadPath)
  {
    if |d.torrentBytes| > 0 then FromBytes
    else if d.torrentURL != [] && Contains(d.torrentURL, MamDownloadPath) then FromMam
    else FromLink
  }

  /** The outcomes of the outside exchanges: the client's login and add request
      (magnet or URL), the client's upload of torrent data, and the tracker's
      torrent files by id (a missing id is a failed download). */
  datatype Clients = Clients(
    loginOk: bool,
    addOk: bool,
    upload: Result<string, QBit.ClientError>,
    tracker: map<int, seq<bv8>>)

  datatype CreateError =
    | TitleOrAuthorMissing
    | SourceMissing
    | BadTrackerUrl(reason: IdError)
    | TrackerFailed
    | ClientFailed(cause: QBit.ClientError)
    | SaveFailed

  /** The hash the client reports for the chosen source. */
  function HashFor(d: Models.Download, c: Clients): (r: Result<string, CreateError>)
    ensures SourceOf(d) == FromBytes ==>
              r == (match QBit.AddTorrentFromFile(d.torrentBytes, c.upload)
                    case Ok(h) => Ok(h) case Err(e) => Err(ClientFailed(e)))
    ensures SourceOf(d) == FromMam && ExtractTorrentId(d.torrentURL).Err? ==>
              r == Err(BadTrackerUrl(ExtractTorrentId(d.torrentURL).error))
    ensures SourceOf(d) == FromMam && ExtractTorrentId(d.torrentURL).Ok? && ExtractTorrentId(d.torrentURL).value !in c.tracker ==>
              r == Err(TrackerFailed)
    ensures SourceOf(d) == FromMam && ExtractTorrentId(d.torrentURL).Ok? && ExtractTorrentId(d.torrentURL).value in c.tracker ==>
              r == (match QBit.AddTorrentFromFile(c.tracker[ExtractTorrentId(d.torrentURL).value], c.upload)
                    case Ok(h) => Ok(h) case Err(e) => Err(ClientFailed(e)))
    ensures SourceOf(d) == FromLink ==>
              r == (match QBit.AddTorrent(d.magnetLink, d.torrentURL, c.loginOk, c.addOk)
                    case Ok(h) => Ok(h) case Err(e) => Err(ClientFailed(e)))
  {
    match SourceOf(d)
    case FromBytes =>
      (match QBit.AddTorrentFromFile(d.torrentBytes, c.upload)
       case Ok(h) => Ok(h)
       case Err(e) => Err(ClientFailed(e)))
    case FromMam =>
      (match ExtractTorrentId(d.torrentURL)
       case Err(e) => Err(BadTrackerUrl(e))
       case Ok(tid) =>
         if tid !in c.tracker then Err(TrackerFailed)
         else
           match QBit.AddTorrentFromFile(c.tracker[tid], c.upload)
           case Ok(h) => Ok(h)
           case Err(e) => Err(ClientFailed(e)))
    case FromLink =>
      (match QBit.AddTorrent(d.magnetLink, d.torrentURL, c.loginOk, c.addOk)
       case Ok(h) => Ok(h)
       case Err(e) => Err(ClientFailed(e)))
  }

  /** The input checks, made before any exchange. */
  function CreateGuard(d: Models.Download): (r: Option<CreateError>)
    ensures r == Some(TitleOrAuthorMissing) <==> d.title == [] || d.author == []
    ensures r == Some(SourceMissing) <==>
              d.title != [] && d.author != [] && d.torrentURL == [] && d.magnetLink == [] && |d.torrentBytes| == 0
    ensures r.None? ==> d.title != [] && d.author != [] && (d.torrentURL != [] || d.magnetLink != [] || |d.torrentBytes| > 0)
  {
    if d.title == [] || d.author == [] then Some(TitleOrAuthorMissing)
    else if d.torrentURL == [] && d.magnetLink == [] && |d.torrentBytes| == 0 then Some(SourceMissing)
    else None
  }

  /** CreateDownload. `freshId` is the generated identifier. On success the
      record is stored queued with the reported hash; an error before the
      insert leaves the store untouched. */
  method CreateDownload(store: DownloadStore, d: Models.Download, freshId: Id, c: Clients)
    returns (r: Result<Models.Download, CreateError>)
    modifies store
    ensures CreateGuard(d).Some? ==> r == Err(CreateGuard(d).value)
    ensures CreateGuard(d).None? && HashFor(d, c).Err? ==> r == Err(HashFor(d, c).error)
    ensures r.Err? && r.error != SaveFailed ==>
              store.records == old(store.records) && store.attempts == old(store.attempts)
    ensures CreateGuard(d).None? && HashFor(d, c).Ok? ==>
              var rec := d.(id := freshId, qbitHash := HashFor(d, c).value, status := Models.Queued);
              var ok := Accepts(old(store.records), Insert(rec), store.failing);
              store.attempts == old(store.attempts) + [Attempt(Insert(rec), ok)] &&
              (ok ==> r == Ok(rec) && store.records == old(store.records)[freshId := Store.Stored(rec)]) &&
              (!ok ==> r == Err(SaveFailed) && store.records == old(store.records))
  {
    var guard := CreateGuard(d);
    if guard.Some? {
      return Err(guard.value);
    }
    var hash := HashFor(d, c);
    if hash.Err? {
      return Err(hash.error);
    }
    var rec := d.(id := freshId, qbitHash := hash.value, status := Models.Queued);
    var ok := store.Perform(Insert(rec));
    if !ok {
      return Err(SaveFailed);
    }
    r := Ok(rec);
  }

  /** A stored download is queued, carries the hash the client reported, and
      keeps the request's title, author, series and links. */
  lemma CreatedRecord(records: map<Id, Models.Download>, d: Models.Download, freshId: Id, hash: string)
    ensures var rec := d.(id := freshId, qbitHash := hash, status := Models.Queued);
            var after := Applied(records, Insert(rec));
            freshId in after && after[freshId].status == Models.Queued && after[freshId].qbitHash == hash &&
            after[freshId].id == freshId && after[freshId].title == d.title && after[freshId].author == d.author &&
            after[freshId].series == d.series && after[freshId].torrentURL == d.torrentURL &&
            after[freshId].magnetLink == d.magnetLink &&
            (forall k :: k in records && k != freshId ==> k in after && after[k] == records[k])
  {
  }

  /** The torrent bytes are preferred over any link, and a tracker download URL
      is preferred over a magnet link. */
  lemma SourcePriority(d: Models.Download)
    ensures |d.torrentBytes| > 0 ==> SourceOf(d) == FromBytes
    ensures |d.torrentBytes| == 0 && Contains(d.torrentURL, MamDownloadPath) ==> SourceOf(d) == FromMam
    ensures |d.torrentBytes| == 0 && !Contains(d.torrentURL, MamDownloadPath) ==> SourceOf(d) == FromLink
  {
  }

  /** A tracker URL without "tid=" fails before the tracker is contacted. */
  lemma TrackerUrlWithoutTid(d: Models.Download, c: Clients)
    requires |d.torrentBytes| == 0 && Contains(d.torrentURL, MamDownloadPath) && !Contains(d.torrentURL, TidMarker)
    ensures HashFor(d, c) == Err(BadTrackerUrl(TidMissing))
  {
  }

  // ---------------------------------------------------------------------------
  // CancelDownload
  // ---------------------------------------------------------------------------

  datatype CancelError = NotFound | RemoteDeleteFailed | DeleteFailed

  /** The request sent to the client: the hash and whether to delete files. */
  datatype DeleteRequest = DeleteRequest(hash: string, deleteFiles: bool)

  /** CancelDownload: the transfer is removed from the client, keeping its
      files, before the record is deleted; a failed removal keeps the record. */
  method CancelDownload(store: DownloadStore, id: Id, remoteOk: bool)
    returns (r: Result<(), CancelError>, request: Option<DeleteRequest>)
    modifies store
    ensures id !in old(store.records) ==>
              r == Err(NotFound) && request.None? && store.records == old(store.records) && store.attempts == old(store.attempts)
    ensures id in old(store.records) ==> request == Some(DeleteRequest(old(store.records)[id].qbitHash, false))
    ensures id in old(store.records) && !remoteOk ==>
              r == Err(RemoteDeleteFailed) && store.records == old(store.records) && store.attempts == old(store.attempts)
    ensures id in old(store.records) && remoteOk ==>
              var ok := Delete(id) !in store.failing;
              store.attempts == old(store.attempts) + [Attempt(Delete(id), ok)] &&
              (ok ==> r == Ok(()) && store.records == old(store.records) - {id}) &&
              (!ok ==> r == Err(DeleteFailed) && store.records == old(store.records))
  {
    var found := store.Get(id);
    if found.None? {
      return Err(NotFound), None;
    }
    request := Some(DeleteRequest(found.value.qbitHash, false));
    if !remoteOk {
      return Err(RemoteDeleteFailed), request;
    }
    var ok := store.Perform(Delete(id));
    if !ok {
      return Err(DeleteFailed), request;
    }
    r := Ok(());
  }

  // ---------------------------------------------------------------------------
  // OrganizeDownload (on request)
  // ---------------------------------------------------------------------------

  datatype ManualError = Missing | OrganizeFailed(cause: Organization.OrgError) | StatusWriteFailed | PathWriteFailed

  /** The writes after organizing on request: none on an error; otherwise
      organized, then the path only if organized was stored. */
  function ManualWrites(id: Id, outcome: Result<Models.Download, Organization.OrgError>, failing: set<Write>, now: int): (r: seq<Attempt>)
    ensures outcome.Err? ==> r == []
    ensures outcome.Ok? ==> r == Monitor.FinishAttempts(id, Ok(outcome.value.organizedPath), failing, now)
  {
    match outcome
    case Err(_) => []
    case Ok(d) => Monitor.FinishAttempts(id, Ok(d.organizedPath), failing, now)
  }

  /** The result reported for an organize request. */
  function ManualResult(id: Id, outcome: Result<Models.Download, Organization.OrgError>, failing: set<Write>, now: int): (r: Result<(), ManualError>)
    ensures r.Ok? <==> outcome.Ok? && forall a :: a in ManualWrites(id, outcome, failing, now) ==> a.ok
  {
    match outcome
    case Err(e) => Err(OrganizeFailed(e))
    case Ok(d) =>
      var w := ManualWrites(id, outcome, failing, now);
      if SetStatus(id, Models.Organized) in failing then
        assert w[0] in w; Err(StatusWriteFailed)
      else if SetOrganizedPath(id, d.organizedPath, now) in failing then
        assert w[1] in w; Err(PathWriteFailed)
      else Ok(())
  }

  /** Storing the outcome of an organize request. */
  method StoreManual(store: DownloadStore, id: Id, outcome: Result<Models.Download, Organization.OrgError>, now: int)
    returns (r: Result<(), ManualError>)
    modifies store
    ensures store.attempts == old(store.attempts) + ManualWrites(id, outcome, store.failing, now)
    ensures store.records == ApplyAll(old(store.records), ManualWrites(id, outcome, store.failing, now))
    ensures r == ManualResult(id, outcome, store.failing, now)
  {
    var writes := ManualWrites(id, outcome, store.failing, now);
    match outcome
    case Err(e) =>
      r := Err(OrganizeFailed(e));
    case Ok(d) =>
      var ok := store.Perform(SetStatus(id, Models.Organized));
      if !ok {
        r := Err(StatusWriteFailed);
        assert [writes[0]] == writes;
        return;
      }
      ok := store.Perform(SetOrganizedPath(id, d.organizedPath, now));
      ApplyAllAppend(old(store.records), [writes[0]], [writes[1]]);
      assert [writes[0]] + [writes[1]] == writes;
      r := if ok then Ok(()) else Err(PathWriteFailed);
  }

  /** Organize the stored record, then store the outcome. */
  method OrganizeStored(store: DownloadStore, fs: Organization.FileSystem, config: map<string, string>,
                        dl: Models.Download, manifest: Option<seq<QBit.TorrentFile>>, order: seq<string>, now: int)
    returns (r: Result<(), ManualError>)
    requires Template.IsIterationOrder(order, Organization.TemplateVars(dl))
    modifies store, fs
    ensures var o := Organization.OrganizeSpec(old(fs.files), old(fs.dirs), fs.faults, config, dl, manifest, order);
            store.attempts == old(store.attempts) + ManualWrites(dl.id, o.result, store.failing, now) &&
            store.records == ApplyAll(old(store.records), ManualWrites(dl.id, o.result, store.failing, now)) &&
            fs.files == o.files && fs.dirs == o.dirs &&
            r == ManualResult(dl.id, o.result, store.failing, now)
  {
    var outcome := Organization.Organize(fs, config, dl, manifest, order);
    r := StoreManual(store, dl.id, outcome, now);
  }

  /** OrganizeDownload on request: unlike the monitor it never marks the
      download organizing or failed. */
  method OrganizeDownload(store: DownloadStore, fs: Organization.FileSystem, config: map<string, string>,
                          id: Id, manifest: Option<seq<QBit.TorrentFile>>, order: seq<string>, now: int)
    returns (r: Result<(), ManualError>)
    requires KeyedById(store.records)
    requires id in store.records ==> Template.IsIterationOrder(order, Organization.TemplateVars(store.records[id]))
    modifies store, fs
    ensures id !in old(store.records) ==>
              r == Err(Missing) && store.records == old(store.records) && store.attempts == old(store.attempts) &&
              fs.files == old(fs.files) && fs.dirs == old(fs.dirs)
    ensures id in old(store.records) ==>
              var dl := old(store.records)[id];
              var o := Organization.OrganizeSpec(old(fs.files), old(fs.dirs), fs.faults, config, dl, manifest, order);
              var writes := ManualWrites(id, o.result, store.failing, now);
              store.attempts == old(store.attempts) + writes &&
              store.records == ApplyAll(old(store.records), writes) &&
              fs.files == o.files && fs.dirs == o.dirs &&
              r == ManualResult(id, o.result, store.failing, now)
  {
    var found := store.Get(id);
    if found.None? {
      return Err(Missing);
    }
    r := OrganizeStored(store, fs, config, found.value, manifest, order, now);
  }

  /** Organizing on request never writes organizing or failed, and stores the
      path only right after organized was stored. */
  lemma ManualWritesOnlyOrganized(id: Id, outcome: Result<Models.Download, Organization.OrgError>, failing: set<Write>, now: int)
    ensures var w := ManualWrites(id, outcome, failing, now);
            forall i :: 0 <= i < |w| ==>
              w[i].write != SetStatus(id, Models.Organizing) && w[i].write != SetStatus(id, Models.Failed) &&
              (w[i].write.SetOrganizedPath? ==> i == 1 && w[0].write == SetStatus(id, Models.Organized) && w[0].ok)
  {
  }
}
