/**
 * The rules inside the HTTP handlers (backend/internal/server/handlers.go):
 * creating one download or a batch, updating a configuration key, previewing
 * a path template and guarding a search query. Request decoding and response
 * writing are left out; a response is a value. Fetching a torrent file by
 * its tracker id is an oracle: a map from id to bytes, a missing id failing.
 */
module Handlers {
  import opened Strings
  import opened Store
  import Models
  import Validation
  import DownloadService
  import Dto
  import Sanitizer
  import Template
  import ConfigService
  import EnvMapping
  import Organization
  import OrganizationProps

  // ---------------------------------------------------------------------------
  // Preparing one download request (shared by the single and batch handlers)
  // ---------------------------------------------------------------------------

  datatype ItemError =
    | Invalid(reason: Validation.RequestError)
    | BadTorrentId
    | FetchFailed
    | CreateFailed(cause: DownloadService.CreateError)

  /** The message a failed batch item carries: a fixed prefix naming the
      stage, and for a validation failure ": " and the check's own message.
      The other stages' causes come from outside the model. */
  function ItemErrorText(e: ItemError): (r: string)
    ensures |r| > 0
    ensures e.Invalid? ==> r == ValidationPrefix + Validation.RequestErrorText(e.reason)
  {
    match e
    case Invalid(reason) => ValidationPrefix + Validation.RequestErrorText(reason)
    case BadTorrentId => "Invalid torrent ID"
    case FetchFailed => "Failed to download torrent"
    case CreateFailed(_) => "Failed to create download"
  }

  const ValidationPrefix: string := "Validation failed: "

  /** A validation failure's message names the failing check: it matches
      another item's message exactly when that item failed the same check. */
  lemma ItemErrorTextTellsReason(x: ItemError, y: ItemError)
    requires x.Invalid?
    ensures ItemErrorText(x) == ItemErrorText(y) <==> y.Invalid? && y.reason == x.reason
  {
    var tx, ty := ItemErrorText(x), ItemErrorText(y);
    if y.Invalid? {
      assert tx[|ValidationPrefix|..] == Validation.RequestErrorText(x.reason);
      assert ty[|ValidationPrefix|..] == Validation.RequestErrorText(y.reason);
      Validation.RequestErrorTextInjective(x.reason, y.reason);
    } else {
      assert tx[0] == 'V' && ty[0] != 'V';
    }
  }

  /** A blank title is reported as in the source: "Validation failed: title
      is required and cannot be empty". */
  lemma BlankTitleMessage(req: Validation.CreateDownloadRequest, torrents: map<int, seq<bv8>>)
    requires forall i :: 0 <= i < |req.title| ==> IsGoSpace(req.title[i])
    ensures PrepareDownload(req, torrents).Err?
    ensures ItemErrorText(PrepareDownload(req, torrents).error) ==
              "Validation failed: " + "title is required and cannot be empty"
  {
    Validation.BlankTitleRejected(req);
  }

  /** The record handed to the download service: the request's fields, and
      the torrent file when a tracker id is given. Fields the service fills
      in are left empty; the status is overwritten with queued on creation. */
  function Record(req: Validation.CreateDownloadRequest, bytes: seq<bv8>): (d: Models.Download)
  {
    Models.Download([], req.title, req.author, req.series, req.seriesNumber, req.torrentURL, req.magnetLink,
                    bytes, req.category, [], Models.Queued, 0.0, [], [], [], None, None)
  }

  /** Validation, then the tracker id: it must parse as an integer and its
      torrent must be fetched. */
  function PrepareDownload(req: Validation.CreateDownloadRequest, torrents: map<int, seq<bv8>>): (r: Result<Models.Download, ItemError>)
    ensures Validation.ValidateDownloadRequest(req).Some? ==> r == Err(Invalid(Validation.ValidateDownloadRequest(req).value))
    ensures Validation.ValidateDownloadRequest(req).None? && req.torrentId != [] && Atoi(req.torrentId).None? ==>
              r == Err(BadTorrentId)
    ensures r.Ok? <==>
              Validation.WellFormed(req) &&
              (req.torrentId != [] ==> Atoi(req.torrentId).Some? && Atoi(req.torrentId).value in torrents)
    ensures r.Ok? ==>
              r.value.title == req.title && r.value.author == req.author && r.value.series == req.series &&
              r.value.seriesNumber == req.seriesNumber && r.value.torrentURL == req.torrentURL &&
              r.value.magnetLink == req.magnetLink && r.value.category == req.category &&
              r.value.torrentBytes == (if req.torrentId == [] then [] else torrents[Atoi(req.torrentId).value])
  {
    match Validation.ValidateDownloadRequest(req)
    case Some(e) => Err(Invalid(e))
    case None =>
      if req.torrentId == [] then Ok(Record(req, []))
      else
        match Atoi(req.torrentId)
        case None => Err(BadTorrentId)
        case Some(tid) =>
          if tid !in torrents then Err(FetchFailed) else Ok(Record(req, torrents[tid]))
  }

  /** A prepared request passes the service's own guards: a valid request
      has a non-blank title and author and a URL or magnet link. */
  lemma PreparedPassesGuard(req: Validation.CreateDownloadRequest, torrents: map<int, seq<bv8>>)
    requires PrepareDownload(req, torrents).Ok?
    ensures DownloadService.CreateGuard(PrepareDownload(req, torrents).value).None?
  {
  }

  /** Whether the request gets as far as the store: prepared, past the
      service's guard, and accepted by the torrent client. */
  predicate Reaches(req: Validation.CreateDownloadRequest, torrents: map<int, seq<bv8>>, c: DownloadService.Clients)
  {
    PrepareDownload(req, torrents).Ok? &&
    DownloadService.CreateGuard(PrepareDownload(req, torrents).value).None? &&
    DownloadService.HashFor(PrepareDownload(req, torrents).value, c).Ok?
  }

  /** The record stored for a request that reaches the store. */
  function CreatedRecord(req: Validation.CreateDownloadRequest, torrents: map<int, seq<bv8>>, c: DownloadService.Clients,
                         freshId: Id): (d: Models.Download)
    requires Reaches(req, torrents, c)
    ensures d.id == freshId && d.title == req.title && d.author == req.author && d.status == Models.Queued
  {
    var d := PrepareDownload(req, torrents).value;
    d.(id := freshId, qbitHash := DownloadService.HashFor(d, c).value, status := Models.Queued)
  }

  /** The call into the download service for a record past its guard: a
      failed exchange with the client is its error and writes nothing;
      otherwise one insert of the queued record with the reported hash is
      attempted, and the record is the answer exactly when the store
      accepts it. */
  method Create(store: DownloadStore, d: Models.Download, freshId: Id, c: DownloadService.Clients)
    returns (r: Result<Models.Download, DownloadService.CreateError>, ghost added: seq<Attempt>)
    requires DownloadService.CreateGuard(d).None?
    modifies store
    ensures DownloadService.HashFor(d, c).Err? ==> r == Err(DownloadService.HashFor(d, c).error) && added == []
    ensures DownloadService.HashFor(d, c).Ok? ==>
              var rec := d.(id := freshId, qbitHash := DownloadService.HashFor(d, c).value, status := Models.Queued);
              var ok := Accepts(old(store.records), Insert(rec), store.failing);
              added == [Attempt(Insert(rec), ok)] && r == (if ok then Ok(rec) else Err(DownloadService.SaveFailed))
    ensures r.Ok? ==> DownloadService.HashFor(d, c).Ok? &&
                      r.value == d.(id := freshId, qbitHash := DownloadService.HashFor(d, c).value, status := Models.Queued) &&
                      store.records == old(store.records)[freshId := Stored(r.value)]
    ensures r.Err? ==> store.records == old(store.records)
    ensures store.attempts == old(store.attempts) + added && InsertsOnly(added)
    ensures store.records == ApplyAll(old(store.records), added)
    ensures |added| == if DownloadService.HashFor(d, c).Ok? then 1 else 0
  {
    ghost var before := store.attempts;
    r := DownloadService.CreateDownload(store, d, freshId, c);
    added := store.attempts[|before|..];
    assert store.attempts == before + added;
  }

  /** Appending to the attempts made so far. */
  lemma AppendAttempts(before: seq<Attempt>, added: seq<Attempt>, more: seq<Attempt>)
    requires InsertsOnly(added) && InsertsOnly(more)
    ensures (before + added) + more == before + (added + more)
    ensures InsertsOnly(added + more)
  {
    assert forall j :: 0 <= j < |added + more| ==> (added + more)[j] == if j < |added| then added[j] else more[j - |added|];
  }

  /** Attempts that are all inserts. */
  predicate InsertsOnly(attempts: seq<Attempt>)
  {
    forall j :: 0 <= j < |attempts| ==> attempts[j].write.Insert?
  }

  // ---------------------------------------------------------------------------
  // handleCreateDownload
  // ---------------------------------------------------------------------------

  datatype CreateResponse =
    | Created(download: Dto.DownloadDto)   // 201
    | Rejected(code: int, error: ItemError)

  /** 400 for a request the client got wrong, 500 for a failure further on. */
  function StatusCode(e: ItemError): (code: int)
    ensures code == 400 <==> e.Invalid? || e.BadTorrentId?
    ensures code == 400 || code == 500
  {
    if e.Invalid? || e.BadTorrentId? then 400 else 500
  }

  method HandleCreateDownload(store: DownloadStore, req: Validation.CreateDownloadRequest, torrents: map<int, seq<bv8>>,
                              freshId: Id, c: DownloadService.Clients) returns (r: CreateResponse)
    modifies store
    ensures PrepareDownload(req, torrents).Err? ==>
              r == Rejected(StatusCode(PrepareDownload(req, torrents).error), PrepareDownload(req, torrents).error) &&
              store.records == old(store.records) && store.attempts == old(store.attempts)
    ensures PrepareDownload(req, torrents).Ok? && !Reaches(req, torrents, c) ==>
              r == Rejected(500, CreateFailed(DownloadService.HashFor(PrepareDownload(req, torrents).value, c).error)) &&
              store.records == old(store.records) && store.attempts == old(store.attempts)
    ensures Reaches(req, torrents, c) ==>
              var rec := CreatedRecord(req, torrents, c, freshId);
              if Accepts(old(store.records), Insert(rec), store.failing) then
                r == Created(Dto.ToDto(rec)) && store.records == old(store.records)[freshId := Stored(rec)]
              else
                r == Rejected(500, CreateFailed(DownloadService.SaveFailed)) && store.records == old(store.records)
    ensures r.Created? ==>
              Reaches(req, torrents, c) && r.download == Dto.ToDto(CreatedRecord(req, torrents, c, freshId)) &&
              store.records == old(store.records)[freshId := Stored(CreatedRecord(req, torrents, c, freshId))]
    ensures r.Rejected? ==> store.records == old(store.records)
  {
    match PrepareDownload(req, torrents)
    case Err(e) =>
      return Rejected(StatusCode(e), e);
    case Ok(d) =>
      PreparedPassesGuard(req, torrents);
      var created, _ := Create(store, d, freshId, c);
      match created
      case Err(e) =>
        return Rejected(500, CreateFailed(e));
      case Ok(rec) =>
        return Created(Dto.ToDto(rec));
  }

  // ---------------------------------------------------------------------------
  // handleBatchCreateDownload
  // ---------------------------------------------------------------------------

  const MaxBatch: nat := 50

  datatype BatchFailure = BatchFailure(index: nat, request: Validation.CreateDownloadRequest, error: string)

  datatype BatchResponse = BatchResponse(successful: seq<Dto.DownloadDto>, failed: seq<BatchFailure>)

  datatype BatchRejection = EmptyBatch | BatchTooLarge

  /** The indices of the failed items. */
  function FailedIndices(failed: seq<BatchFailure>): (s: set<nat>)
    ensures forall j :: 0 <= j < |failed| ==> failed[j].index in s
    ensures forall i :: i in s ==> exists j :: 0 <= j < |failed| && failed[j].index == i
  {
    if failed == [] then {}
    else FailedIndices(failed[..|failed| - 1]) + {failed[|failed| - 1].index}
  }

  /** Which items of a batch reach the store. */
  function ReachFlags(reqs: seq<Validation.CreateDownloadRequest>, torrents: map<int, seq<bv8>>, c: DownloadService.Clients): (f: seq<bool>)
    ensures |f| == |reqs|
    ensures forall k :: 0 <= k < |reqs| ==> f[k] == Reaches(reqs[k], torrents, c)
  {
    seq(|reqs|, k requires 0 <= k < |reqs| => Reaches(reqs[k], torrents, c))
  }

  /** The number of set flags. */
  function CountTrue(flags: seq<bool>): (n: nat)
    ensures n <= |flags|
  {
    if flags == [] then 0 else CountTrue(flags[..|flags| - 1]) + (if flags[|flags| - 1] then 1 else 0)
  }

  /** One item of the batch. */
  method ProcessItem(store: DownloadStore, req: Validation.CreateDownloadRequest, index: nat,
                     torrents: map<int, seq<bv8>>, freshId: Id, c: DownloadService.Clients)
    returns (r: Result<Dto.DownloadDto, BatchFailure>, ghost added: seq<Attempt>)
    modifies store
    ensures r.Err? ==> r.error.index == index && r.error.request == req && |r.error.error| > 0
    ensures PrepareDownload(req, torrents).Err? ==> r.Err? && added == []
    ensures !Reaches(req, torrents, c) ==> r.Err? && added == []
    ensures Reaches(req, torrents, c) ==>
              var rec := CreatedRecord(req, torrents, c, freshId);
              var ok := Accepts(old(store.records), Insert(rec), store.failing);
              added == [Attempt(Insert(rec), ok)] && (r.Ok? <==> ok) && (ok ==> r.value == Dto.ToDto(rec))
    ensures r.Ok? ==> Reaches(req, torrents, c) && r.value == Dto.ToDto(CreatedRecord(req, torrents, c, freshId))
    ensures store.attempts == old(store.attempts) + added && InsertsOnly(added)
    ensures store.records == ApplyAll(old(store.records), added)
    ensures |added| == if Reaches(req, torrents, c) then 1 else 0
  {
    match PrepareDownload(req, torrents)
    case Err(e) =>
      added := [];
      assert store.attempts == old(store.attempts) + added;
      return Err(BatchFailure(index, req, ItemErrorText(e))), added;
    case Ok(d) =>
      PreparedPassesGuard(req, torrents);
      var created;
      created, added := Create(store, d, freshId, c);
      match created
      case Err(e) =>
        return Err(BatchFailure(index, req, ItemErrorText(CreateFailed(e)))), added;
      case Ok(rec) =>
        return Ok(Dto.ToDto(rec)), added;
  }

  /** The view each item would produce if created: the view of the record
      stored for it when it reaches the store, and nothing otherwise. */
  function Expected(reqs: seq<Validation.CreateDownloadRequest>, torrents: map<int, seq<bv8>>,
                    freshIds: seq<Id>, c: DownloadService.Clients): (e: seq<Option<Dto.DownloadDto>>)
    requires |freshIds| == |reqs|
    ensures |e| == |reqs|
    ensures forall k :: 0 <= k < |reqs| ==>
              e[k] == if Reaches(reqs[k], torrents, c) then Some(Dto.ToDto(CreatedRecord(reqs[k], torrents, c, freshIds[k]))) else None
  {
    seq(|reqs|, k requires 0 <= k < |reqs| =>
      if Reaches(reqs[k], torrents, c) then Some(Dto.ToDto(CreatedRecord(reqs[k], torrents, c, freshIds[k]))) else None)
  }

  /** The record each item would store: the queued record created for it
      when it reaches the store, and nothing otherwise. */
  function CreatedRecords(reqs: seq<Validation.CreateDownloadRequest>, torrents: map<int, seq<bv8>>,
                          freshIds: seq<Id>, c: DownloadService.Clients): (recs: seq<Option<Models.Download>>)
    requires |freshIds| == |reqs|
    ensures |recs| == |reqs|
    ensures forall k :: 0 <= k < |reqs| ==>
              recs[k] == if Reaches(reqs[k], torrents, c) then Some(CreatedRecord(reqs[k], torrents, c, freshIds[k])) else None
  {
    seq(|reqs|, k requires 0 <= k < |reqs| =>
      if Reaches(reqs[k], torrents, c) then Some(CreatedRecord(reqs[k], torrents, c, freshIds[k])) else None)
  }

  /** The store attempts of the first `i` items: `origin[j]` is the item the
      j-th attempt was made for. Each attempt inserts that item's created
      record, in item order; every item among the first `i` that reaches the
      store has its attempt; and an attempt went through exactly when its
      item is among the successes. */
  predicate AttemptsSoFar(recs: seq<Option<Models.Download>>, i: nat, added: seq<Attempt>, origin: seq<nat>, created: seq<nat>)
    requires i <= |recs|
  {
    |origin| == |added| &&
    (forall j, k :: 0 <= j < k < |origin| ==> origin[j] < origin[k]) &&
    (forall j :: 0 <= j < |origin| ==>
       origin[j] < i && recs[origin[j]].Some? && added[j].write == Insert(recs[origin[j]].value) &&
       (added[j].ok <==> origin[j] in created)) &&
    (forall k :: 0 <= k < i && recs[k].Some? ==> k in origin)
  }

  /** One more item extends the attempts: its insert, if it reaches the
      store, is attempted and goes through exactly when the item succeeds. */
  lemma AttemptsStep(recs: seq<Option<Models.Download>>, i: nat, added: seq<Attempt>, origin: seq<nat>, created: seq<nat>,
                     more: seq<Attempt>, success: bool)
    requires i < |recs| && AttemptsSoFar(recs, i, added, origin, created)
    requires forall m :: 0 <= m < |created| ==> created[m] < i
    requires recs[i].None? ==> more == []
    requires recs[i].Some? ==> |more| == 1 && more[0].write == Insert(recs[i].value) && (more[0].ok <==> success)
    ensures AttemptsSoFar(recs, i + 1, added + more, origin + (if recs[i].Some? then [i] else []),
                          if success then created + [i] else created)
  {
    var origin' := origin + (if recs[i].Some? then [i] else []);
    var added' := added + more;
    var created' := if success then created + [i] else created;
    forall j | 0 <= j < |origin| ensures origin[j] in created' <==> origin[j] in created {
      assert origin[j] != i;
    }
    forall j | 0 <= j < |origin'|
      ensures origin'[j] < i + 1 && recs[origin'[j]].Some? && added'[j].write == Insert(recs[origin'[j]].value) &&
              (added'[j].ok <==> origin'[j] in created')
    {
      if j < |origin| {
        assert origin'[j] == origin[j] && added'[j] == added[j];
      } else {
        assert origin'[j] == i && added'[j] == more[0];
        assert forall m :: 0 <= m < |created| ==> created[m] != i;
      }
    }
    forall j, k | 0 <= j < k < |origin'| ensures origin'[j] < origin'[k] {
      assert origin'[j] == origin[j];
      if k < |origin| {
        assert origin'[k] == origin[k];
      }
    }
    forall k | 0 <= k < i + 1 && recs[k].Some? ensures k in origin' {
      if k < i {
        assert k in origin;
      } else {
        assert origin'[|origin|] == i;
      }
    }
  }

  /** Which items cannot even be prepared. */
  function Unprepared(reqs: seq<Validation.CreateDownloadRequest>, torrents: map<int, seq<bv8>>): (u: seq<bool>)
    ensures |u| == |reqs|
    ensures forall k :: 0 <= k < |reqs| ==> u[k] == PrepareDownload(reqs[k], torrents).Err?
  {
    seq(|reqs|, k requires 0 <= k < |reqs| => PrepareDownload(reqs[k], torrents).Err?)
  }

  /** The state of the batch after its first `i` items: every one of them is
      either among the failures, in order and with its own request and a
      message, or among the successes (`created` holds their indices, in
      order), each success being the item's expected view; and an item that
      could not be prepared has failed. */
  predicate BatchSoFar(reqs: seq<Validation.CreateDownloadRequest>, expected: seq<Option<Dto.DownloadDto>>,
                       unprepared: seq<bool>, i: nat,
                       successful: seq<Dto.DownloadDto>, failed: seq<BatchFailure>, created: seq<nat>)
    requires i <= |reqs| == |expected| == |unprepared|
  {
    |successful| + |failed| == i && |created| == |successful| &&
    FailuresSoFar(reqs, i, failed) && SuccessesSoFar(expected, i, successful, created) &&
    Partitioned(i, FailedIndices(failed), created) && UnpreparedFailed(unprepared, i, FailedIndices(failed))
  }

  /** Each item so far has either failed or been created, not both. */
  predicate Partitioned(i: nat, failedAt: set<nat>, created: seq<nat>)
  {
    forall m :: 0 <= m < i ==> (m in failedAt <==> m !in created)
  }

  /** Each item so far that could not be prepared has failed. */
  predicate UnpreparedFailed(unprepared: seq<bool>, i: nat, failedAt: set<nat>)
    requires i <= |unprepared|
  {
    forall m :: 0 <= m < i && unprepared[m] ==> m in failedAt
  }

  /** The failures so far, in order, each with its own request and a message. */
  predicate FailuresSoFar(reqs: seq<Validation.CreateDownloadRequest>, i: nat, failed: seq<BatchFailure>)
    requires i <= |reqs|
  {
    (forall j :: 0 <= j < |failed| ==>
       failed[j].index < i && failed[j].request == reqs[failed[j].index] && |failed[j].error| > 0) &&
    (forall j, k :: 0 <= j < k < |failed| ==> failed[j].index < failed[k].index)
  }

  /** The successes so far, in order, each the expected view of its item. */
  predicate SuccessesSoFar(expected: seq<Option<Dto.DownloadDto>>, i: nat,
                           successful: seq<Dto.DownloadDto>, created: seq<nat>)
    requires i <= |expected| && |created| == |successful|
  {
    (forall j, k :: 0 <= j < k < |created| ==> created[j] < created[k]) &&
    (forall j :: 0 <= j < |created| ==> created[j] < i && expected[created[j]] == Some(successful[j]))
  }

  /** One more item, as ProcessItem reports it, extends the batch state. */
  lemma BatchStep(reqs: seq<Validation.CreateDownloadRequest>, expected: seq<Option<Dto.DownloadDto>>,
                  unprepared: seq<bool>, i: nat,
                  successful: seq<Dto.DownloadDto>, failed: seq<BatchFailure>, created: seq<nat>,
                  outcome: Result<Dto.DownloadDto, BatchFailure>)
    requires i < |reqs| == |expected| == |unprepared|
    requires BatchSoFar(reqs, expected, unprepared, i, successful, failed, created)
    requires outcome.Err? ==> outcome.error.index == i && outcome.error.request == reqs[i] && |outcome.error.error| > 0
    requires unprepared[i] ==> outcome.Err?
    requires outcome.Ok? ==> expected[i] == Some(outcome.value)
    ensures outcome.Ok? ==> BatchSoFar(reqs, expected, unprepared, i + 1, successful + [outcome.value], failed, created + [i])
    ensures outcome.Err? ==> BatchSoFar(reqs, expected, unprepared, i + 1, successful, failed + [outcome.error], created)
  {
    if outcome.Err? {
      var failed' := failed + [outcome.error];
      FailuresStep(reqs, i, failed, outcome.error);
      SuccessesLater(expected, i, successful, created);
      assert failed'[..|failed|] == failed;
      assert FailedIndices(failed') == FailedIndices(failed) + {i};
      assert forall j :: 0 <= j < |created| ==> created[j] < i;
      PartitionFailed(i, FailedIndices(failed), created);
    } else {
      FailuresLater(reqs, i, failed);
      SuccessesStep(expected, i, successful, created, outcome.value);
      assert i !in FailedIndices(failed);
      PartitionCreated(i, FailedIndices(failed), created);
    }
  }

  lemma PartitionFailed(i: nat, failedAt: set<nat>, created: seq<nat>)
    requires Partitioned(i, failedAt, created) && i !in created
    ensures Partitioned(i + 1, failedAt + {i}, created)
  {
  }

  lemma PartitionCreated(i: nat, failedAt: set<nat>, created: seq<nat>)
    requires Partitioned(i, failedAt, created) && i !in failedAt
    ensures Partitioned(i + 1, failedAt, created + [i])
  {
    forall m | 0 <= m < i + 1 ensures m in failedAt <==> m !in created + [i] {
      assert m in created + [i] <==> m in created || m == i;
    }
  }

  lemma FailuresStep(reqs: seq<Validation.CreateDownloadRequest>, i: nat, failed: seq<BatchFailure>, failure: BatchFailure)
    requires i < |reqs| && FailuresSoFar(reqs, i, failed)
    requires failure.index == i && failure.request == reqs[i] && |failure.error| > 0
    ensures FailuresSoFar(reqs, i + 1, failed + [failure])
  {
    var failed' := failed + [failure];
    forall j | 0 <= j < |failed'|
      ensures failed'[j].index < i + 1 && failed'[j].request == reqs[failed'[j].index] && |failed'[j].error| > 0
    {
      if j < |failed| {
        assert failed'[j] == failed[j];
      }
    }
    forall j, k | 0 <= j < k < |failed'| ensures failed'[j].index < failed'[k].index {
      assert failed'[j] == failed[j];
      if k < |failed| {
        assert failed'[k] == failed[k];
      }
    }
  }

  lemma FailuresLater(reqs: seq<Validation.CreateDownloadRequest>, i: nat, failed: seq<BatchFailure>)
    requires i < |reqs| && FailuresSoFar(reqs, i, failed)
    ensures FailuresSoFar(reqs, i + 1, failed)
  {
  }

  lemma SuccessesStep(expected: seq<Option<Dto.DownloadDto>>, i: nat,
                      successful: seq<Dto.DownloadDto>, created: seq<nat>, view: Dto.DownloadDto)
    requires i < |expected| && |created| == |successful| && SuccessesSoFar(expected, i, successful, created)
    requires expected[i] == Some(view)
    ensures SuccessesSoFar(expected, i + 1, successful + [view], created + [i])
  {
    var created' := created + [i];
    var successful' := successful + [view];
    forall j, k | 0 <= j < k < |created'| ensures created'[j] < created'[k] {
      assert created'[j] == created[j];
    }
    forall j | 0 <= j < |created'| ensures created'[j] < i + 1 && expected[created'[j]] == Some(successful'[j]) {
      if j < |created| {
        assert created'[j] == created[j] && successful'[j] == successful[j];
      }
    }
  }

  lemma SuccessesLater(expected: seq<Option<Dto.DownloadDto>>, i: nat, successful: seq<Dto.DownloadDto>, created: seq<nat>)
    requires i < |expected| && |created| == |successful| && SuccessesSoFar(expected, i, successful, created)
    ensures SuccessesSoFar(expected, i + 1, successful, created)
  {
  }

  /** Counting one more flag. */
  lemma CountStep(flags: seq<bool>, i: nat)
    requires i < |flags|
    ensures CountTrue(flags[..i + 1]) == CountTrue(flags[..i]) + (if flags[i] then 1 else 0)
  {
    assert flags[..i + 1][..i] == flags[..i];
  }

  /** The ghost summaries a batch is checked against are those of its items. */
  predicate Summaries(reqs: seq<Validation.CreateDownloadRequest>, torrents: map<int, seq<bv8>>,
                      freshIds: seq<Id>, c: DownloadService.Clients,
                      expected: seq<Option<Dto.DownloadDto>>, unprepared: seq<bool>, flags: seq<bool>,
                      recs: seq<Option<Models.Download>>)
    requires |freshIds| == |reqs|
  {
    expected == Expected(reqs, torrents, freshIds, c) && unprepared == Unprepared(reqs, torrents) &&
    flags == ReachFlags(reqs, torrents, c) && recs == CreatedRecords(reqs, torrents, freshIds, c)
  }

  /** Item i of the batch, reported against the expected views. */
  method BatchItem(store: DownloadStore, reqs: seq<Validation.CreateDownloadRequest>, torrents: map<int, seq<bv8>>,
                   freshIds: seq<Id>, c: DownloadService.Clients, i: nat,
                   ghost expected: seq<Option<Dto.DownloadDto>>, ghost unprepared: seq<bool>, ghost flags: seq<bool>,
                   ghost recs: seq<Option<Models.Download>>)
    returns (outcome: Result<Dto.DownloadDto, BatchFailure>, ghost more: seq<Attempt>)
    requires i < |reqs| == |freshIds|
    requires Summaries(reqs, torrents, freshIds, c, expected, unprepared, flags, recs)
    modifies store
    ensures outcome.Err? ==> outcome.error.index == i && outcome.error.request == reqs[i] && |outcome.error.error| > 0
    ensures unprepared[i] ==> outcome.Err?
    ensures outcome.Ok? ==> expected[i] == Some(outcome.value)
    ensures recs[i].None? ==> more == []
    ensures recs[i].Some? ==> |more| == 1 && more[0].write == Insert(recs[i].value) && (more[0].ok <==> outcome.Ok?)
    ensures store.attempts == old(store.attempts) + more && InsertsOnly(more)
    ensures store.records == ApplyAll(old(store.records), more)
    ensures |more| == if flags[i] then 1 else 0
  {
    outcome, more := ProcessItem(store, reqs[i], i, torrents, freshIds[i], c);
  }

  /** What the loop keeps after its first `i` items: the batch state, one
      insert attempted for each of those items that reaches the store, and
      the records those attempts leave. */
  predicate LoopState(reqs: seq<Validation.CreateDownloadRequest>, expected: seq<Option<Dto.DownloadDto>>,
                      unprepared: seq<bool>, flags: seq<bool>, recs: seq<Option<Models.Download>>, i: nat,
                      successful: seq<Dto.DownloadDto>, failed: seq<BatchFailure>, created: seq<nat>,
                      attempts: seq<Attempt>, before: seq<Attempt>, added: seq<Attempt>, origin: seq<nat>,
                      records: map<Id, Models.Download>, recordsBefore: map<Id, Models.Download>)
    requires i <= |reqs| == |expected| == |unprepared| == |flags| == |recs|
  {
    BatchSoFar(reqs, expected, unprepared, i, successful, failed, created) &&
    attempts == before + added && InsertsOnly(added) && |added| == CountTrue(flags[..i]) &&
    records == ApplyAll(recordsBefore, added) && AttemptsSoFar(recs, i, added, origin, created)
  }

  /** One turn of the loop: item i is processed and the batch state is
      extended by its outcome. */
  method BatchAdvance(store: DownloadStore, reqs: seq<Validation.CreateDownloadRequest>, torrents: map<int, seq<bv8>>,
                      freshIds: seq<Id>, c: DownloadService.Clients,
                      ghost expected: seq<Option<Dto.DownloadDto>>, ghost unprepared: seq<bool>, ghost flags: seq<bool>,
                      ghost recs: seq<Option<Models.Download>>,
                      i: nat, successful: seq<Dto.DownloadDto>, failed: seq<BatchFailure>, ghost created: seq<nat>,
                      ghost before: seq<Attempt>, ghost added: seq<Attempt>, ghost origin: seq<nat>,
                      ghost recordsBefore: map<Id, Models.Download>)
    returns (successful': seq<Dto.DownloadDto>, failed': seq<BatchFailure>, ghost created': seq<nat>,
             ghost added': seq<Attempt>, ghost origin': seq<nat>)
    requires i < |freshIds| == |reqs| == |expected| == |unprepared| == |flags| == |recs|
    requires Summaries(reqs, torrents, freshIds, c, expected, unprepared, flags, recs)
    requires LoopState(reqs, expected, unprepared, flags, recs, i, successful, failed, created, store.attempts, before, added,
                       origin, store.records, recordsBefore)
    modifies store
    ensures LoopState(reqs, expected, unprepared, flags, recs, i + 1, successful', failed', created', store.attempts, before,
                      added', origin', store.records, recordsBefore)
  {
    var outcome, more := BatchItem(store, reqs, torrents, freshIds, c, i, expected, unprepared, flags, recs);
    added' := added + more;
    origin' := origin + (if recs[i].Some? then [i] else []);
    AppendAttempts(before, added, more);
    ApplyAllAppend(recordsBefore, added, more);
    AttemptsStep(recs, i, added, origin, created, more, outcome.Ok?);
    BatchStep(reqs, expected, unprepared, i, successful, failed, created, outcome);
    CountStep(flags, i);
    match outcome
    case Ok(dto) =>
      successful', failed', created' := successful + [dto], failed, created + [i];
    case Err(f) =>
      successful', failed', created' := successful, failed + [f], created;
  }

  /** The sequential loop over the items. */
  method ProcessBatch(store: DownloadStore, reqs: seq<Validation.CreateDownloadRequest>, torrents: map<int, seq<bv8>>,
                      freshIds: seq<Id>, c: DownloadService.Clients,
                      ghost expected: seq<Option<Dto.DownloadDto>>, ghost unprepared: seq<bool>, ghost flags: seq<bool>,
                      ghost recs: seq<Option<Models.Download>>)
    returns (successful: seq<Dto.DownloadDto>, failed: seq<BatchFailure>, ghost created: seq<nat>,
             ghost added: seq<Attempt>, ghost origin: seq<nat>)
    requires |freshIds| == |reqs| == |expected| == |unprepared| == |flags| == |recs|
    requires Summaries(reqs, torrents, freshIds, c, expected, unprepared, flags, recs)
    modifies store
    ensures BatchSoFar(reqs, expected, unprepared, |reqs|, successful, failed, created)
    ensures |added| == CountTrue(flags)
    ensures store.attempts == old(store.attempts) + added && InsertsOnly(added)
    ensures store.records == ApplyAll(old(store.records), added)
    ensures AttemptsSoFar(recs, |reqs|, added, origin, created)
  {
    successful, failed, created, added, origin := [], [], [], [], [];
    ghost var before := store.attempts;
    ghost var recordsBefore := store.records;
    LoopStart(reqs, expected, unprepared, flags, recs, before, recordsBefore);
    for i := 0 to |reqs|
      invariant LoopState(reqs, expected, unprepared, flags, recs, i, successful, failed, created, store.attempts, before,
                          added, origin, store.records, recordsBefore)
    {
      successful, failed, created, added, origin :=
        BatchAdvance(store, reqs, torrents, freshIds, c, expected, unprepared, flags, recs, i,
                     successful, failed, created, before, added, origin, recordsBefore);
    }
    LoopDone(reqs, expected, unprepared, flags, recs, successful, failed, created, store.attempts, before, added, origin,
             store.records, recordsBefore);
  }

  /** The loop state before the first item. */
  lemma LoopStart(reqs: seq<Validation.CreateDownloadRequest>, expected: seq<Option<Dto.DownloadDto>>,
                  unprepared: seq<bool>, flags: seq<bool>, recs: seq<Option<Models.Download>>, before: seq<Attempt>,
                  recordsBefore: map<Id, Models.Download>)
    requires |reqs| == |expected| == |unprepared| == |flags| == |recs|
    ensures LoopState(reqs, expected, unprepared, flags, recs, 0, [], [], [], before, before, [], [], recordsBefore, recordsBefore)
  {
    assert before + [] == before;
    assert flags[..0] == [];
  }

  /** The loop state after the last item is what the batch reports. */
  lemma LoopDone(reqs: seq<Validation.CreateDownloadRequest>, expected: seq<Option<Dto.DownloadDto>>,
                 unprepared: seq<bool>, flags: seq<bool>, recs: seq<Option<Models.Download>>,
                 successful: seq<Dto.DownloadDto>, failed: seq<BatchFailure>, created: seq<nat>,
                 attempts: seq<Attempt>, before: seq<Attempt>, added: seq<Attempt>, origin: seq<nat>,
                 records: map<Id, Models.Download>, recordsBefore: map<Id, Models.Download>)
    requires |reqs| == |expected| == |unprepared| == |flags| == |recs|
    requires LoopState(reqs, expected, unprepared, flags, recs, |reqs|, successful, failed, created, attempts, before,
                       added, origin, records, recordsBefore)
    ensures BatchSoFar(reqs, expected, unprepared, |reqs|, successful, failed, created)
    ensures |added| == CountTrue(flags) && attempts == before + added && InsertsOnly(added)
    ensures records == ApplyAll(recordsBefore, added) && AttemptsSoFar(recs, |reqs|, added, origin, created)
  {
    assert flags[..|reqs|] == flags;
  }

  /** handleBatchCreateDownload. `freshIds[i]` is the identifier generated for
      item i. `created` (ghost) lists the indices of the successful items and
      `added` the store attempts the batch made. */
  method HandleBatch(store: DownloadStore, reqs: seq<Validation.CreateDownloadRequest>, torrents: map<int, seq<bv8>>,
                     freshIds: seq<Id>, c: DownloadService.Clients)
    returns (r: Result<BatchResponse, BatchRejection>, ghost created: seq<nat>, ghost added: seq<Attempt>,
             ghost origin: seq<nat>)
    requires |freshIds| == |reqs|
    modifies store
    ensures |reqs| == 0 ==> r == Err(EmptyBatch)
    ensures |reqs| > MaxBatch ==> r == Err(BatchTooLarge)
    ensures r.Err? ==> added == [] && store.records == old(store.records)
    ensures 1 <= |reqs| <= MaxBatch ==> r.Ok?
    ensures r.Ok? ==>
              BatchSoFar(reqs, Expected(reqs, torrents, freshIds, c), Unprepared(reqs, torrents), |reqs|,
                         r.value.successful, r.value.failed, created)
    ensures r.Ok? ==> |added| == CountTrue(ReachFlags(reqs, torrents, c))
    ensures r.Ok? ==> AttemptsSoFar(CreatedRecords(reqs, torrents, freshIds, c), |reqs|, added, origin, created)
    ensures store.attempts == old(store.attempts) + added && InsertsOnly(added)
    ensures store.records == ApplyAll(old(store.records), added)
  {
    if |reqs| == 0 || |reqs| > MaxBatch {
      created, added, origin := [], [], [];
      assert store.attempts == old(store.attempts) + added;
      return (if |reqs| == 0 then Err(EmptyBatch) else Err(BatchTooLarge)), created, added, origin;
    }
    var successful, failed;
    successful, failed, created, added, origin := ProcessBatch(store, reqs, torrents, freshIds, c,
      Expected(reqs, torrents, freshIds, c), Unprepared(reqs, torrents), ReachFlags(reqs, torrents, c),
      CreatedRecords(reqs, torrents, freshIds, c));
    r := Ok(BatchResponse(successful, failed));
  }

  /** What a finished batch does to the store: the j-th attempt inserts the
      queued record created for item `origin[j]`, the items that reach the
      store are exactly those, in order, and an insert went through exactly
      when its item is among the successes. */
  lemma BatchInserts(reqs: seq<Validation.CreateDownloadRequest>, torrents: map<int, seq<bv8>>,
                     freshIds: seq<Id>, c: DownloadService.Clients,
                     added: seq<Attempt>, origin: seq<nat>, created: seq<nat>)
    requires |reqs| == |freshIds|
    requires AttemptsSoFar(CreatedRecords(reqs, torrents, freshIds, c), |reqs|, added, origin, created)
    ensures |added| == |origin|
    ensures forall j :: 0 <= j < |added| ==>
              origin[j] < |reqs| && Reaches(reqs[origin[j]], torrents, c) &&
              added[j].write == Insert(CreatedRecord(reqs[origin[j]], torrents, c, freshIds[origin[j]])) &&
              (added[j].ok <==> origin[j] in created)
    ensures forall k :: 0 <= k < |reqs| && Reaches(reqs[k], torrents, c) ==> k in origin
    ensures forall j, k :: 0 <= j < k < |origin| ==> origin[j] < origin[k]
  {
    var recs := CreatedRecords(reqs, torrents, freshIds, c);
    forall j | 0 <= j < |added|
      ensures origin[j] < |reqs| && Reaches(reqs[origin[j]], torrents, c) &&
              added[j].write == Insert(CreatedRecord(reqs[origin[j]], torrents, c, freshIds[origin[j]])) &&
              (added[j].ok <==> origin[j] in created)
    {
      assert recs[origin[j]].Some?;
    }
    forall k | 0 <= k < |reqs| && Reaches(reqs[k], torrents, c) ensures k in origin {
      assert recs[k].Some?;
    }
  }

  /** What a finished batch means: the failures and the successes together
      number the items and no index is in both; every success is the view of
      the queued record stored for its item; and an item with a tracker id
      that is not a number has failed. */
  lemma BatchOutcome(reqs: seq<Validation.CreateDownloadRequest>, torrents: map<int, seq<bv8>>,
                     freshIds: seq<Id>, c: DownloadService.Clients,
                     successful: seq<Dto.DownloadDto>, failed: seq<BatchFailure>, created: seq<nat>)
    requires |reqs| == |freshIds|
    requires BatchSoFar(reqs, Expected(reqs, torrents, freshIds, c), Unprepared(reqs, torrents), |reqs|,
                        successful, failed, created)
    ensures |successful| + |failed| == |reqs|
    ensures forall i :: 0 <= i < |reqs| ==> (i in FailedIndices(failed)) != (i in created)
    ensures forall j :: 0 <= j < |created| ==>
              created[j] < |reqs| && Reaches(reqs[created[j]], torrents, c) &&
              successful[j] == Dto.ToDto(CreatedRecord(reqs[created[j]], torrents, c, freshIds[created[j]])) &&
              successful[j].status == "queued" && successful[j].id == freshIds[created[j]]
    ensures forall i :: 0 <= i < |reqs| && reqs[i].torrentId != [] && Atoi(reqs[i].torrentId).None? ==>
              i in FailedIndices(failed)
  {
    forall j | 0 <= j < |created|
      ensures created[j] < |reqs| && Reaches(reqs[created[j]], torrents, c) &&
              successful[j] == Dto.ToDto(CreatedRecord(reqs[created[j]], torrents, c, freshIds[created[j]])) &&
              successful[j].status == "queued" && successful[j].id == freshIds[created[j]]
    {
      SuccessIsCreated(reqs, torrents, freshIds, c, successful, created, j);
    }
    forall i | 0 <= i < |reqs| && reqs[i].torrentId != [] && Atoi(reqs[i].torrentId).None?
      ensures i in FailedIndices(failed)
    {
      BadTorrentIdFails(reqs, torrents, failed, i);
    }
  }

  /** A success of the batch is the view of the record created for its item. */
  lemma SuccessIsCreated(reqs: seq<Validation.CreateDownloadRequest>, torrents: map<int, seq<bv8>>,
                         freshIds: seq<Id>, c: DownloadService.Clients,
                         successful: seq<Dto.DownloadDto>, created: seq<nat>, j: nat)
    requires |reqs| == |freshIds| && |created| == |successful| && j < |created|
    requires SuccessesSoFar(Expected(reqs, torrents, freshIds, c), |reqs|, successful, created)
    ensures created[j] < |reqs| && Reaches(reqs[created[j]], torrents, c) &&
            successful[j] == Dto.ToDto(CreatedRecord(reqs[created[j]], torrents, c, freshIds[created[j]])) &&
            successful[j].status == "queued" && successful[j].id == freshIds[created[j]]
  {
    var k := created[j];
    assert Expected(reqs, torrents, freshIds, c)[k] == Some(successful[j]);
  }

  /** An item whose tracker id is not a number cannot be prepared, so it fails. */
  lemma BadTorrentIdFails(reqs: seq<Validation.CreateDownloadRequest>, torrents: map<int, seq<bv8>>,
                          failed: seq<BatchFailure>, i: nat)
    requires i < |reqs| && reqs[i].torrentId != [] && Atoi(reqs[i].torrentId).None?
    requires UnpreparedFailed(Unprepared(reqs, torrents), |reqs|, FailedIndices(failed))
    ensures i in FailedIndices(failed)
  {
    assert PrepareDownload(reqs[i], torrents).Err?;
    assert Unprepared(reqs, torrents)[i];
  }

  // ---------------------------------------------------------------------------
  // handleUpdateConfig
  // ---------------------------------------------------------------------------

  /** The keys whose value may not be set to "". */
  const RequiredKeys: set<string> := {
    "qbittorrent.url", "qbittorrent.username", "paths.destination", "paths.template",
    "paths.no_series_template", "paths.operation", "monitor.interval_seconds",
    "monitor.auto_organize", "mam.baseurl"}

  datatype UpdateConfigError =
    | KeyMissing                           // 400
    | KeyInvalid(reason: Validation.KeyError)   // 400
    | EmptyRequired                        // 400
    | UpdateFailed                         // 500

  /** The checks before the write, in order. */
  function UpdateConfigCheck(key: string, value: string): (r: Option<UpdateConfigError>)
    ensures r.None? <==> Validation.ValidateConfigKey(key).None? && !(value == [] && key in RequiredKeys)
    ensures key == [] ==> r == Some(KeyMissing)
  {
    if key == [] then Some(KeyMissing)
    else if Validation.ValidateConfigKey(key).Some? then Some(KeyInvalid(Validation.ValidateConfigKey(key).value))
    else if value == [] && key in RequiredKeys then Some(EmptyRequired)
    else None
  }

  /** handleUpdateConfig: a rejected request writes nothing. */
  method HandleUpdateConfig(svc: ConfigService.Service, key: string, value: string) returns (r: Option<UpdateConfigError>)
    modifies svc
    ensures UpdateConfigCheck(key, value).Some? ==> r == UpdateConfigCheck(key, value) && svc.db == old(svc.db)
    ensures UpdateConfigCheck(key, value).None? && svc.writeFails ==> r == Some(UpdateFailed) && svc.db == old(svc.db)
    ensures UpdateConfigCheck(key, value).None? && !svc.writeFails ==> r.None? && svc.db == old(svc.db)[key := value]
  {
    r := UpdateConfigCheck(key, value);
    if r.Some? {
      return;
    }
    var err := svc.Set(key, value);
    if err.Some? {
      return Some(UpdateFailed);
    }
  }

  /** The empty key is already refused by the key check, so the handler's
      first test never decides anything on its own. */
  lemma EmptyKeyRefusedByValidation()
    ensures Validation.ValidateConfigKey([]) == Some(Validation.KeyEmpty)
  {
  }

  /** For a well-formed key, an empty value is refused exactly for the
      required keys; any other value is accepted. */
  lemma EmptyValueRule(key: string, value: string)
    requires Validation.ValidateConfigKey(key).None?
    ensures UpdateConfigCheck(key, value).Some? <==> value == [] && key in RequiredKeys
  {
  }

  /** The required keys are the environment-mapped keys except the password,
      the tracker secret and the mount prefix, which may be cleared. */
  lemma RequiredAreMappedKeys()
    ensures RequiredKeys == EnvMapping.EnvKeyMap.Keys - {"qbittorrent.password", "mam.secret", "paths.local_mount"}
  {
    MappedKeysSplit();
    ClearedNotRequired();
  }

  lemma MappedKeysSplit()
    ensures EnvMapping.EnvKeyMap.Keys == RequiredKeys + {"qbittorrent.password", "mam.secret", "paths.local_mount"}
  {
  }

  lemma ClearedNotRequired()
    ensures "qbittorrent.password" !in RequiredKeys && "mam.secret" !in RequiredKeys && "paths.local_mount" !in RequiredKeys
  {
  }

  // ---------------------------------------------------------------------------
  // handlePreviewPath
  // ---------------------------------------------------------------------------

  datatype PreviewRequest = PreviewRequest(template: string, author: string, series: string, seriesNumber: string, title: string)

  datatype PreviewResponse = PreviewResponse(valid: bool, path: string, error: string)

  /** The preview's variables. Unlike the organizer, the preview has a
      series_number variable. */
  function PreviewVarMap(author: string, series: string, seriesNumber: string, title: string): (vars: map<string, string>)
    ensures vars.Keys == {"author", "series", "series_number", "title"}
    ensures vars["author"] == author && vars["series"] == series && vars["series_number"] == seriesNumber &&
            vars["title"] == title
  {
    map["author" := author, "series" := series, "series_number" := seriesNumber, "title" := title]
  }

  /** Each field sanitised before substitution, so that separators in the
      template survive and separators in the fields do not. */
  function PreviewVars(req: PreviewRequest): (vars: map<string, string>)
    ensures vars.Keys == {"author", "series", "series_number", "title"}
    ensures Sanitizer.NoInvalid(vars["author"]) && Sanitizer.Trimmed(vars["author"])
    ensures Sanitizer.NoInvalid(vars["series"]) && Sanitizer.Trimmed(vars["series"])
    ensures Sanitizer.NoInvalid(vars["series_number"]) && Sanitizer.Trimmed(vars["series_number"])
    ensures Sanitizer.NoInvalid(vars["title"]) && Sanitizer.Trimmed(vars["title"])
  {
    PreviewVarMap(Sanitizer.SanitizePath(req.author), Sanitizer.SanitizePath(req.series),
                  Sanitizer.SanitizePath(req.seriesNumber), Sanitizer.SanitizePath(req.title))
  }

  /** handlePreviewPath. The template check is a library routine outside
      this model; its outcome, an error message or none, is a parameter.
      `order` is the iteration order of the variable map. */
  function PreviewPath(req: PreviewRequest, templateError: Option<string>, order: seq<string>): (r: PreviewResponse)
    requires Template.IsIterationOrder(order, PreviewVars(req))
    ensures r.valid <==> templateError.None?
    ensures templateError.Some? ==> r.error == templateError.value && r.path == []
    ensures templateError.None? ==> r.error == [] && r.path == Template.ParseTemplate(req.template, PreviewVars(req), order)
  {
    match templateError
    case Some(msg) => PreviewResponse(false, [], msg)
    case None => PreviewResponse(true, Template.ParseTemplate(req.template, PreviewVars(req), order), [])
  }

  /** Brace-free values make a brace-free variable map. */
  lemma PreviewVarMapBraceFree(a: string, s: string, n: string, t: string)
    requires Template.BraceFree(a) && Template.BraceFree(s) && Template.BraceFree(n) && Template.BraceFree(t)
    ensures Template.BraceFreeVars(PreviewVarMap(a, s, n, t))
  {
    assert Template.BraceFree("author") && Template.BraceFree("series") &&
           Template.BraceFree("series_number") && Template.BraceFree("title");
  }

  /** The fields of a request without braces sanitise to brace-free values. */
  lemma PreviewVarsBraceFree(req: PreviewRequest)
    requires Template.BraceFree(req.author) && Template.BraceFree(req.series) &&
             Template.BraceFree(req.seriesNumber) && Template.BraceFree(req.title)
    ensures Template.BraceFreeVars(PreviewVars(req))
  {
    OrganizationProps.SanitizedBraceFree(req.author);
    OrganizationProps.SanitizedBraceFree(req.series);
    OrganizationProps.SanitizedBraceFree(req.seriesNumber);
    OrganizationProps.SanitizedBraceFree(req.title);
    PreviewVarMapBraceFree(Sanitizer.SanitizePath(req.author), Sanitizer.SanitizePath(req.series),
                           Sanitizer.SanitizePath(req.seriesNumber), Sanitizer.SanitizePath(req.title));
  }

  /** "{series_number}" alone becomes the series number, in any order. */
  lemma SeriesNumberSubstituted(vars: map<string, string>, order: seq<string>)
    requires Template.IsIterationOrder(order, vars) && Template.BraceFreeVars(vars) && "series_number" in vars
    ensures Template.ParseTemplate("{series_number}", vars, order) == vars["series_number"]
  {
    OrganizationProps.PlaceholderLiteral();
    assert Template.BraceFree("series_number");
    assert Template.FlatBraces([]);
    OrganizationProps.FlatHead("series_number", []);
    assert Template.Placeholder("series_number") + [] == "{series_number}";
    Template.ParseTemplateIsSubstitute("{series_number}", vars, order);
    OrganizationProps.SubstituteHead("series_number", [], vars);
    assert Template.Substitute([], vars) == [];
  }

  /** The preview substitutes "{series_number}" with the sanitised number,
      in every iteration order, while the organizer leaves that placeholder
      in the path verbatim: a preview of a template using it shows a path
      the organizer does not produce. */
  lemma PreviewShowsSeriesNumber(req: PreviewRequest, order: seq<string>, dl: Models.Download, order2: seq<string>)
    requires req.template == "{series_number}"
    requires Template.BraceFree(req.author) && Template.BraceFree(req.series) &&
             Template.BraceFree(req.seriesNumber) && Template.BraceFree(req.title)
    requires Template.IsIterationOrder(order, PreviewVars(req))
    requires Template.IsIterationOrder(order2, Organization.TemplateVars(dl))
    ensures PreviewPath(req, None, order).path == Sanitizer.SanitizePath(req.seriesNumber)
    ensures Template.ParseTemplate(req.template, Organization.TemplateVars(dl), order2) == "{series_number}"
  {
    PreviewVarsBraceFree(req);
    SeriesNumberSubstituted(PreviewVars(req), order);
    OrganizationProps.SeriesNumberKept(dl, order2);
  }

  /** Under brace-free fields and a template whose braces do not nest, the
      preview does not depend on the map's iteration order. */
  lemma PreviewOrderIndependent(req: PreviewRequest, order1: seq<string>, order2: seq<string>)
    requires Template.FlatBraces(req.template)
    requires Template.BraceFree(req.author) && Template.BraceFree(req.series) &&
             Template.BraceFree(req.seriesNumber) && Template.BraceFree(req.title)
    requires Template.IsIterationOrder(order1, PreviewVars(req)) && Template.IsIterationOrder(order2, PreviewVars(req))
    ensures PreviewPath(req, None, order1) == PreviewPath(req, None, order2)
  {
    PreviewVarsBraceFree(req);
    Template.OrderIndependent(req.template, PreviewVars(req), order1, order2);
  }

  // ---------------------------------------------------------------------------
  // handleSearch query guard
  // ---------------------------------------------------------------------------

  datatype QueryError = QueryMissing | QueryTooShort

  /** The query must be present and at least two bytes long. */
  function SearchQueryCheck(q: string): (r: Option<QueryError>)
    ensures r.None? <==> Utf8Len(q) >= 2
    ensures r == Some(QueryMissing) <==> q == []
  {
    if q == [] then Some(QueryMissing)
    else if Utf8Len(q) < 2 then Some(QueryTooShort)
    else None
  }

  /** The length is counted in bytes: a single ASCII character is too short,
      while a single character outside ASCII is accepted. */
  lemma OneCharacterQueries(c: char)
    ensures c as int < 0x80 ==> SearchQueryCheck([c]) == Some(QueryTooShort)
    ensures c as int >= 0x80 ==> SearchQueryCheck([c]).None?
  {
    assert [c][1..] == [];
  }
}
