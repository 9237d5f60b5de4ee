/**
 * The download monitor (backend/internal/downloads/monitor.go).
 *
 * One tick of the monitor goes through the active downloads, asks the torrent
 * client for each one's state, records progress and completion, and requests
 * organization of completed downloads. The store is a class holding the
 * records by id and the log of attempted writes; which writes fail is a
 * fixed oracle. The torrent client's answers are a map from hash to state
 * (a missing hash is a failed query). The organization that the source starts
 * in a goroutine is recorded as a dispatched id; OrganizeDownload is what that
 * goroutine runs.
 */
module Monitor {
  import opened Strings
  import opened Store
  import Models
  import Organization
  import Template
  import QBit

  // ---------------------------------------------------------------------------
  // States and configuration
  // ---------------------------------------------------------------------------

  /** mapQBitStatusToModel; None stands for the empty status of an unknown state. */
  function MapStatus(state: string): (r: Option<Models.Status>)
    ensures state in QueuedStates ==> r == Some(Models.Queued)
    ensures state in DownloadingStates ==> r == Some(Models.Downloading)
    ensures state in SeedingStates ==> r == Some(Models.Completed)
    ensures r.Some? <==> state in QueuedStates + DownloadingStates + SeedingStates
  {
    if state in QueuedStates then Some(Models.Queued)
    else if state in DownloadingStates then Some(Models.Downloading)
    else if state in SeedingStates then Some(Models.Completed)
    else None
  }

  const QueuedStates: seq<string> := ["queuedDL", "queuedUP"]
  const DownloadingStates: seq<string> := ["downloading", "metaDL", "allocating", "checkingDL", "forcedDL"]
  const SeedingStates: seq<string> := ["uploading", "stalledUP", "pausedUP", "forcedUP", "checkingUP"]

  /** The raw states the tick treats as finished downloading. */
  predicate CompletesOn(state: string)
  {
    state == "uploading" || state == "stalledUP" || state == "pausedUP"
  }

  /** Every completing state maps to completed, but two states that map to
      completed do not trigger completion. */
  lemma CompletionAgainstMapping(state: string)
    ensures CompletesOn(state) ==> MapStatus(state) == Some(Models.Completed)
    ensures MapStatus("forcedUP") == Some(Models.Completed) && !CompletesOn("forcedUP")
    ensures MapStatus("checkingUP") == Some(Models.Completed) && !CompletesOn("checkingUP")
  {
    assert "forcedUP" !in QueuedStates + DownloadingStates;
    assert "checkingUP" !in QueuedStates + DownloadingStates;
    if CompletesOn(state) {
      assert state !in QueuedStates + DownloadingStates;
    }
  }

  const KeyAutoOrganize: string := "organization.auto_organize"
  const KeyInterval: string := "monitor.interval_seconds"

  /** Auto-organization is off only when the key is readable and is "false". */
  function AutoOrganize(config: map<string, string>): (on: bool)
    ensures !on <==> KeyAutoOrganize in config && config[KeyAutoOrganize] == "false"
  {
    !(KeyAutoOrganize in config && config[KeyAutoOrganize] == "false")
  }

  /** The statuses GetActive selects. */
  predicate IsActive(s: Models.Status)
  {
    s == Models.Queued || s == Models.Downloading || s == Models.Completed
  }

  /** A listing of the active downloads, in the store's order: distinct ids,
      each active, and every active record listed. */
  predicate ActiveListing(ids: seq<Id>, records: map<Id, Models.Download>)
  {
    (forall i :: 0 <= i < |ids| ==> ids[i] in records && IsActive(records[ids[i]].status)) &&
    (forall k :: k in records && IsActive(records[k].status) ==> k in ids) &&
    (forall i, j :: 0 <= i < j < |ids| ==> ids[i] != ids[j])
  }

  function Snapshot(records: map<Id, Models.Download>, ids: seq<Id>): (dls: seq<Models.Download>)
    requires forall i :: 0 <= i < |ids| ==> ids[i] in records
    ensures |dls| == |ids| && forall i :: 0 <= i < |ids| ==> dls[i] == records[ids[i]]
  {
    seq(|ids|, i requires 0 <= i < |ids| => records[ids[i]])
  }

  /** What the torrent client reports for one torrent. */
  datatype TorrentState = TorrentState(state: string, progress: real)

  // ---------------------------------------------------------------------------
  // One tick
  // ---------------------------------------------------------------------------

  /** One record's part of a tick: the writes attempted for it, and whether
      its organization is requested. */
  function RecordStep(dl: Models.Download, remote: map<string, TorrentState>, failing: set<Write>,
                      config: map<string, string>, now: int): (r: (seq<Attempt>, bool))
    ensures dl.qbitHash !in remote ==> r == ([], false)
    ensures dl.qbitHash in remote ==>
              1 <= |r.0| <= 2 && r.0[0] == Try(Progress(dl.id, remote[dl.qbitHash].progress), failing) &&
              (|r.0| == 2 <==> CompletesOn(remote[dl.qbitHash].state) && dl.status != Models.Organized) &&
              (|r.0| == 2 ==> r.0[1] == Try(CompletedAt(dl.id, now), failing))
    ensures r.1 <==> |r.0| == 2 && r.0[1].ok && AutoOrganize(config)
    ensures forall i :: 0 <= i < |r.0| ==> FieldUpdate(r.0[i].write) && Target(r.0[i].write) == dl.id
  {
    if dl.qbitHash !in remote then ([], false)
    else
      var q := remote[dl.qbitHash];
      var progress := Try(Progress(dl.id, q.progress), failing);
      if CompletesOn(q.state) && dl.status != Models.Organized then
        var done := Try(CompletedAt(dl.id, now), failing);
        if !done.ok then ([progress, done], false)
        else ([progress, done], AutoOrganize(config))
      else ([progress], false)
  }

  /** The writes of a tick over `dls`, record by record. */
  function TickAttempts(dls: seq<Models.Download>, remote: map<string, TorrentState>, failing: set<Write>,
                        config: map<string, string>, now: int): seq<Attempt>
  {
    if dls == [] then []
    else TickAttempts(dls[..|dls| - 1], remote, failing, config, now) + RecordStep(dls[|dls| - 1], remote, failing, config, now).0
  }

  /** The ids whose organization a tick over `dls` requests, in order. */
  function TickDispatched(dls: seq<Models.Download>, remote: map<string, TorrentState>, failing: set<Write>,
                          config: map<string, string>, now: int): seq<Id>
  {
    if dls == [] then []
    else
      var last := dls[|dls| - 1];
      TickDispatched(dls[..|dls| - 1], remote, failing, config, now) +
      (if RecordStep(last, remote, failing, config, now).1 then [last.id] else [])
  }

  /** The body of checkDownloads' loop for one record. */
  method VisitRecord(store: DownloadStore, dl: Models.Download, remote: map<string, TorrentState>,
                     config: map<string, string>, now: int)
    returns (dispatch: bool)
    modifies store
    ensures store.attempts == old(store.attempts) + RecordStep(dl, remote, store.failing, config, now).0
    ensures store.records == ApplyAll(old(store.records), RecordStep(dl, remote, store.failing, config, now).0)
    ensures dispatch == RecordStep(dl, remote, store.failing, config, now).1
  {
    dispatch := false;
    ghost var step := RecordStep(dl, remote, store.failing, config, now).0;
    if dl.qbitHash !in remote {
      return;
    }
    var q := remote[dl.qbitHash];
    var progressOk := store.Perform(Progress(dl.id, q.progress));
    if CompletesOn(q.state) && dl.status != Models.Organized {
      ghost var mid := store.records;
      var completedOk := store.Perform(CompletedAt(dl.id, now));
      ApplyAllAppend(old(store.records), [step[0]], [step[1]]);
      assert [step[0]] + [step[1]] == step;
      dispatch := completedOk && AutoOrganize(config);
    } else {
      assert step == [step[0]];
    }
  }

  /** checkDownloads. `listing` is what GetActive returned (None for an error);
      the result is false exactly when that failed. */
  method CheckDownloads(store: DownloadStore, listing: Option<seq<Id>>, remote: map<string, TorrentState>,
                        config: map<string, string>, now: int)
    returns (ok: bool, dispatched: seq<Id>)
    requires listing.Some? ==> ActiveListing(listing.value, store.records)
    modifies store
    ensures ok == listing.Some?
    ensures !ok ==> store.records == old(store.records) && store.attempts == old(store.attempts) && dispatched == []
    ensures ok ==>
              var dls := Snapshot(old(store.records), listing.value);
              var tick := TickAttempts(dls, remote, store.failing, config, now);
              store.attempts == old(store.attempts) + tick &&
              store.records == ApplyAll(old(store.records), tick) &&
              dispatched == TickDispatched(dls, remote, store.failing, config, now)
  {
    if listing.None? {
      return false, [];
    }
    var dls := Snapshot(store.records, listing.value);
    dispatched := VisitAll(store, dls, remote, config, now);
    ok := true;
  }

  /** The loop of checkDownloads over the listed records. */
  method VisitAll(store: DownloadStore, dls: seq<Models.Download>, remote: map<string, TorrentState>,
                  config: map<string, string>, now: int)
    returns (dispatched: seq<Id>)
    modifies store
    ensures store.attempts == old(store.attempts) + TickAttempts(dls, remote, store.failing, config, now)
    ensures store.records == ApplyAll(old(store.records), TickAttempts(dls, remote, store.failing, config, now))
    ensures dispatched == TickDispatched(dls, remote, store.failing, config, now)
  {
    dispatched := [];
    ghost var records0 := store.records;
    ghost var attempts0 := store.attempts;
    var i := 0;
    while i < |dls|
      invariant 0 <= i <= |dls|
      invariant store.attempts == attempts0 + TickAttempts(dls[..i], remote, store.failing, config, now)
      invariant store.records == ApplyAll(records0, TickAttempts(dls[..i], remote, store.failing, config, now))
      invariant dispatched == TickDispatched(dls[..i], remote, store.failing, config, now)
    {
      TickStep(records0, dls, i, remote, store.failing, config, now);
      var dispatch := VisitRecord(store, dls[i], remote, config, now);
      if dispatch {
        dispatched := dispatched + [dls[i].id];
      }
      i := i + 1;
    }
    assert dls[..i] == dls;
  }

  /** A tick over one more record: its step's writes come last, and its id
      is dispatched last when its step asks for organization. */
  lemma TickStep(records: map<Id, Models.Download>, dls: seq<Models.Download>, i: nat,
                 remote: map<string, TorrentState>, failing: set<Write>, config: map<string, string>, now: int)
    requires i < |dls|
    ensures var before := TickAttempts(dls[..i], remote, failing, config, now);
            var step := RecordStep(dls[i], remote, failing, config, now);
            TickAttempts(dls[..i + 1], remote, failing, config, now) == before + step.0 &&
            ApplyAll(records, before + step.0) == ApplyAll(ApplyAll(records, before), step.0) &&
            TickDispatched(dls[..i + 1], remote, failing, config, now) ==
              TickDispatched(dls[..i], remote, failing, config, now) + (if step.1 then [dls[i].id] else [])
  {
    assert dls[..i + 1][..i] == dls[..i];
    assert dls[..i + 1][i] == dls[i];
    ApplyAllAppend(records, TickAttempts(dls[..i], remote, failing, config, now),
                   RecordStep(dls[i], remote, failing, config, now).0);
  }

  // ---------------------------------------------------------------------------
  // What a tick does
  // ---------------------------------------------------------------------------

  /** The attempts that concern one id. */
  function WritesFor(attempts: seq<Attempt>, id: Id): (r: seq<Attempt>)
    ensures forall i :: 0 <= i < |r| ==> Target(r[i].write) == id
  {
    if attempts == [] then []
    else WritesFor(attempts[..|attempts| - 1], id) +
         (if Target(attempts[|attempts| - 1].write) == id then [attempts[|attempts| - 1]] else [])
  }

  lemma {:induction false} WritesForAppend(a: seq<Attempt>, b: seq<Attempt>, id: Id)
    ensures WritesFor(a + b, id) == WritesFor(a, id) + WritesFor(b, id)
    decreases |b|
  {
    if b == [] {
      assert a + b == a;
    } else {
      var b' := b[..|b| - 1];
      assert (a + b)[..|a + b| - 1] == a + b';
      assert (a + b)[|a + b| - 1] == b[|b| - 1];
      WritesForAppend(a, b', id);
    }
  }

  /** Writes all about one id are kept whole by the filter. */
  lemma {:induction false} WritesForOwn(a: seq<Attempt>, id: Id)
    ensures (forall i :: 0 <= i < |a| ==> Target(a[i].write) == id) ==> WritesFor(a, id) == a
    ensures (forall i :: 0 <= i < |a| ==> Target(a[i].write) != id) ==> WritesFor(a, id) == []
    decreases |a|
  {
    if a != [] {
      var init := a[..|a| - 1];
      WritesForOwn(init, id);
      assert forall i :: 0 <= i < |init| ==> init[i] == a[i];
    }
  }

  /** Within a tick, an id no record carries gets no writes. */
  lemma {:induction false} TickWritesForNone(dls: seq<Models.Download>, remote: map<string, TorrentState>, failing: set<Write>,
                                             config: map<string, string>, now: int, id: Id)
    requires forall i :: 0 <= i < |dls| ==> dls[i].id != id
    ensures WritesFor(TickAttempts(dls, remote, failing, config, now), id) == []
    decreases |dls|
  {
    if dls != [] {
      var init := dls[..|dls| - 1];
      var step := RecordStep(dls[|dls| - 1], remote, failing, config, now).0;
      assert forall i :: 0 <= i < |init| ==> init[i] == dls[i];
      TickWritesForNone(init, remote, failing, config, now, id);
      WritesForAppend(TickAttempts(init, remote, failing, config, now), step, id);
      WritesForOwn(step, id);
    }
  }

  /** Within a tick over records with distinct ids, the writes about a listed
      record are exactly its own step's writes. */
  lemma {:induction false} TickWritesForAt(dls: seq<Models.Download>, remote: map<string, TorrentState>, failing: set<Write>,
                                           config: map<string, string>, now: int, i: nat)
    requires forall i, j :: 0 <= i < j < |dls| ==> dls[i].id != dls[j].id
    requires i < |dls|
    ensures WritesFor(TickAttempts(dls, remote, failing, config, now), dls[i].id) == RecordStep(dls[i], remote, failing, config, now).0
    decreases |dls|
  {
    var id := dls[i].id;
    var init := dls[..|dls| - 1];
    var last := dls[|dls| - 1];
    var step := RecordStep(last, remote, failing, config, now).0;
    assert forall k :: 0 <= k < |init| ==> init[k] == dls[k];
    WritesForAppend(TickAttempts(init, remote, failing, config, now), step, id);
    WritesForOwn(step, id);
    if i == |dls| - 1 {
      TickWritesForNone(init, remote, failing, config, now, id);
    } else {
      TickWritesForAt(init, remote, failing, config, now, i);
    }
  }

  /** The writes a tick makes about a listed record are exactly its step's:
      none when its query fails; otherwise its progress, then the completion
      time exactly when the raw state completes and it is not organized. */
  lemma TickRecordWrites(records: map<Id, Models.Download>, ids: seq<Id>, remote: map<string, TorrentState>,
                         failing: set<Write>, config: map<string, string>, now: int, id: Id)
    requires KeyedById(records) && ActiveListing(ids, records)
    ensures var tick := TickAttempts(Snapshot(records, ids), remote, failing, config, now);
            (id in ids ==> WritesFor(tick, id) == RecordStep(records[id], remote, failing, config, now).0) &&
            (id !in ids ==> WritesFor(tick, id) == [])
  {
    var dls := Snapshot(records, ids);
    forall i, j | 0 <= i < j < |dls|
      ensures dls[i].id != dls[j].id
    {
      assert dls[i].id == ids[i] && dls[j].id == ids[j];
    }
    if id in ids {
      var i :| 0 <= i < |ids| && ids[i] == id;
      assert dls[i] == records[id];
      TickWritesForAt(dls, remote, failing, config, now, i);
    } else {
      assert forall i :: 0 <= i < |dls| ==> dls[i].id == ids[i];
      TickWritesForNone(dls, remote, failing, config, now, id);
    }
  }

  /** A tick writes no status: it only updates progress and completion time. */
  lemma {:induction false} TickWritesNoStatus(dls: seq<Models.Download>, remote: map<string, TorrentState>, failing: set<Write>,
                                              config: map<string, string>, now: int)
    ensures forall i :: 0 <= i < |TickAttempts(dls, remote, failing, config, now)| ==>
              FieldUpdate(TickAttempts(dls, remote, failing, config, now)[i].write)
    decreases |dls|
  {
    if dls != [] {
      TickWritesNoStatus(dls[..|dls| - 1], remote, failing, config, now);
    }
  }

  /** checkDownloads never changes a record's status: the mapped status is only
      logged. Ids, hashes and the set of records are kept too. */
  lemma TickKeepsStatus(records: map<Id, Models.Download>, ids: seq<Id>, remote: map<string, TorrentState>,
                        failing: set<Write>, config: map<string, string>, now: int)
    requires ActiveListing(ids, records)
    ensures var after := ApplyAll(records, TickAttempts(Snapshot(records, ids), remote, failing, config, now));
            after.Keys == records.Keys &&
            forall k :: k in records ==> after[k].status == records[k].status && after[k].qbitHash == records[k].qbitHash &&
                                         after[k].id == records[k].id
  {
    var tick := TickAttempts(Snapshot(records, ids), remote, failing, config, now);
    TickWritesNoStatus(Snapshot(records, ids), remote, failing, config, now);
    ApplyAllKeeps(records, tick);
  }

  /** One step depends only on the record's id, hash and status. */
  lemma RecordStepDependsOn(d1: Models.Download, d2: Models.Download, remote: map<string, TorrentState>, failing: set<Write>,
                            config: map<string, string>, now: int)
    requires d1.id == d2.id && d1.qbitHash == d2.qbitHash && d1.status == d2.status
    ensures RecordStep(d1, remote, failing, config, now) == RecordStep(d2, remote, failing, config, now)
  {
  }

  lemma {:induction false} DispatchedIsStep(dls: seq<Models.Download>, remote: map<string, TorrentState>, failing: set<Write>,
                                            config: map<string, string>, now: int, id: Id)
    ensures id in TickDispatched(dls, remote, failing, config, now) ==>
              exists i :: 0 <= i < |dls| && dls[i].id == id && RecordStep(dls[i], remote, failing, config, now).1
    decreases |dls|
  {
    if dls != [] {
      var init := dls[..|dls| - 1];
      DispatchedIsStep(init, remote, failing, config, now, id);
      if id in TickDispatched(init, remote, failing, config, now) {
        var i :| 0 <= i < |init| && init[i].id == id && RecordStep(init[i], remote, failing, config, now).1;
        assert dls[i] == init[i];
      }
    }
  }

  /** Organization is requested on every tick while the torrent keeps seeding:
      a requested record keeps its status, so it stays active, and the same
      answers request it again. */
  lemma RedispatchedNextTick(records: map<Id, Models.Download>, ids: seq<Id>, remote: map<string, TorrentState>,
                             failing: set<Write>, config: map<string, string>, now: int, later: int, id: Id)
    requires KeyedById(records) && ActiveListing(ids, records)
    requires id in TickDispatched(Snapshot(records, ids), remote, failing, config, now)
    requires CompletedAt(id, later) !in failing
    ensures var after := ApplyAll(records, TickAttempts(Snapshot(records, ids), remote, failing, config, now));
            id in after && IsActive(after[id].status) && RecordStep(after[id], remote, failing, config, later).1
  {
    var dls := Snapshot(records, ids);
    DispatchedIsStep(dls, remote, failing, config, now, id);
    var i :| 0 <= i < |dls| && dls[i].id == id && RecordStep(dls[i], remote, failing, config, now).1;
    var d := dls[i];
    assert d == records[ids[i]];
    assert ids[i] == id;
    TickKeepsStatus(records, ids, remote, failing, config, now);
    var after := ApplyAll(records, TickAttempts(dls, remote, failing, config, now));
    var e := after[id];
    assert e.qbitHash == d.qbitHash && e.status == d.status && e.id == d.id;
    assert IsActive(e.status);
    assert d.qbitHash in remote && CompletesOn(remote[d.qbitHash].state) && d.status != Models.Organized && AutoOrganize(config);
  }

  // ---------------------------------------------------------------------------
  // organizeDownload
  // ---------------------------------------------------------------------------

  /** The writes after the organizing status was stored: on an error the
      message and then failed; on success organized and then the path, the
      path only if organized was stored. */
  function FinishAttempts(id: Id, outcome: Result<string, string>, failing: set<Write>, now: int): (r: seq<Attempt>)
    ensures outcome.Err? ==> r == [Try(SetError(id, outcome.error), failing), Try(SetStatus(id, Models.Failed), failing)]
    ensures outcome.Ok? ==> |r| >= 1 && r[0] == Try(SetStatus(id, Models.Organized), failing) &&
                            (|r| == 2 <==> r[0].ok) && |r| <= 2 &&
                            (|r| == 2 ==> r[1] == Try(SetOrganizedPath(id, outcome.value, now), failing))
  {
    match outcome
    case Err(msg) => [Try(SetError(id, msg), failing), Try(SetStatus(id, Models.Failed), failing)]
    case Ok(path) =>
      var organized := Try(SetStatus(id, Models.Organized), failing);
      if organized.ok then [organized, Try(SetOrganizedPath(id, path, now), failing)] else [organized]
  }

  /** What Organize reported, as stored: the organized path on success, and
      on failure the error's text, which is never empty. */
  function Reported(r: Result<Models.Download, Organization.OrgError>): (s: Result<string, string>)
    ensures s.Ok? <==> r.Ok?
    ensures r.Ok? ==> s.value == r.value.organizedPath
    ensures s.Err? ==> |s.error| > 0
  {
    match r
    case Ok(d) => Ok(d.organizedPath)
    case Err(e) => Err(Organization.ErrorText(e))
  }

  /** Storing the outcome of Organize. */
  method StoreOutcome(store: DownloadStore, id: Id, outcome: Result<string, string>, now: int)
    modifies store
    ensures store.attempts == old(store.attempts) + FinishAttempts(id, outcome, store.failing, now)
    ensures store.records == ApplyAll(old(store.records), FinishAttempts(id, outcome, store.failing, now))
  {
    var finish := FinishAttempts(id, outcome, store.failing, now);
    match outcome
    case Err(msg) =>
      var _ := store.Perform(SetError(id, msg));
      var _ := store.Perform(SetStatus(id, Models.Failed));
      ApplyAllAppend(old(store.records), [finish[0]], [finish[1]]);
      assert [finish[0]] + [finish[1]] == finish;
    case Ok(path) =>
      var ok := store.Perform(SetStatus(id, Models.Organized));
      if ok {
        var _ := store.Perform(SetOrganizedPath(id, path, now));
        ApplyAllAppend(old(store.records), [finish[0]], [finish[1]]);
        assert [finish[0]] + [finish[1]] == finish;
      } else {
        assert [finish[0]] == finish;
      }
  }

  /** The part of organizeDownload after the organizing status was stored. */
  method OrganizeAndStore(store: DownloadStore, fs: Organization.FileSystem, config: map<string, string>,
                          dl: Models.Download, manifest: Option<seq<QBit.TorrentFile>>, order: seq<string>, now: int)
    requires Template.IsIterationOrder(order, Organization.TemplateVars(dl))
    modifies store, fs
    ensures var o := Organization.OrganizeSpec(old(fs.files), old(fs.dirs), fs.faults, config, dl, manifest, order);
            store.attempts == old(store.attempts) + FinishAttempts(dl.id, Reported(o.result), store.failing, now) &&
            store.records == ApplyAll(old(store.records), FinishAttempts(dl.id, Reported(o.result), store.failing, now)) &&
            fs.files == o.files && fs.dirs == o.dirs
  {
    var r := Organization.Organize(fs, config, dl, manifest, order);
    StoreOutcome(store, dl.id, Reported(r), now);
  }

  /** organizeDownload, run for the download `dl`: mark it organizing (stop if
      that fails), organize, then store the outcome. */
  method OrganizeDownload(store: DownloadStore, fs: Organization.FileSystem, config: map<string, string>,
                          dl: Models.Download, manifest: Option<seq<QBit.TorrentFile>>, order: seq<string>, now: int)
    requires Template.IsIterationOrder(order, Organization.TemplateVars(dl))
    modifies store, fs
    ensures var first := Try(SetStatus(dl.id, Models.Organizing), store.failing);
            !first.ok ==>
              store.attempts == old(store.attempts) + [first] &&
              store.records == old(store.records) &&
              fs.files == old(fs.files) && fs.dirs == old(fs.dirs)
    ensures var first := Try(SetStatus(dl.id, Models.Organizing), store.failing);
            var o := Organization.OrganizeSpec(old(fs.files), old(fs.dirs), fs.faults, config, dl, manifest, order);
            var finish := FinishAttempts(dl.id, Reported(o.result), store.failing, now);
            first.ok ==>
              store.attempts == old(store.attempts) + [first] + finish &&
              store.records == ApplyAll(old(store.records), [first] + finish) &&
              fs.files == o.files && fs.dirs == o.dirs
  {
    var first := Try(SetStatus(dl.id, Models.Organizing), store.failing);
    var ok := store.Perform(SetStatus(dl.id, Models.Organizing));
    if !ok {
      return;
    }
    ghost var o := Organization.OrganizeSpec(fs.files, fs.dirs, fs.faults, config, dl, manifest, order);
    ghost var finish := FinishAttempts(dl.id, Reported(o.result), store.failing, now);
    OrganizeAndStore(store, fs, config, dl, manifest, order, now);
    ApplyAllAppend(old(store.records), [first], finish);
  }

  /** When no write fails, an organized download ends as organized with its
      path stored, and a failed one ends as failed with the error text stored. */
  lemma OrganizeDownloadFinalState(records: map<Id, Models.Download>, id: Id, outcome: Result<string, string>,
                                   failing: set<Write>, now: int)
    requires id in records && failing == {}
    ensures var after := ApplyAll(records, [Try(SetStatus(id, Models.Organizing), failing)] + FinishAttempts(id, outcome, failing, now));
            id in after &&
            (outcome.Ok? ==> after[id].status == Models.Organized && after[id].organizedPath == outcome.value &&
                             after[id].organizedAt == Some(now)) &&
            (outcome.Err? ==> after[id].status == Models.Failed && after[id].errorMessage == outcome.error)
  {
    var first := Try(SetStatus(id, Models.Organizing), failing);
    var finish := FinishAttempts(id, outcome, failing, now);
    assert |finish| == 2 && first.ok && finish[0].ok && finish[1].ok;
    assert [first] + finish == [first, finish[0], finish[1]];
    ApplyThree(records, first, finish[0], finish[1]);
    var r1 := Applied(records, first.write);
    assert r1 == records[id := records[id].(status := Models.Organizing)];
    var r2 := Applied(r1, finish[0].write);
    match outcome
    case Ok(path) =>
      assert r2 == r1[id := r1[id].(status := Models.Organized)];
      assert Applied(r2, finish[1].write) == r2[id := r2[id].(organizedPath := path, organizedAt := Some(now))];
    case Err(msg) =>
      assert r2 == r1[id := r1[id].(errorMessage := msg)];
      assert Applied(r2, finish[1].write) == r2[id := r2[id].(status := Models.Failed)];
  }

  /** Three successful attempts, applied one after the other. */
  lemma ApplyThree(records: map<Id, Models.Download>, a: Attempt, b: Attempt, c: Attempt)
    requires a.ok && b.ok && c.ok
    ensures ApplyAll(records, [a, b, c]) == Applied(Applied(Applied(records, a.write), b.write), c.write)
  {
    var r1 := Applied(records, a.write);
    var r2 := Applied(r1, b.write);
    assert [a, b, c][1..] == [b, c];
    assert [b, c][1..] == [c];
    assert [c][1..] == [];
    assert ApplyAll(r2, [c]) == ApplyAll(Applied(r2, c.write), []);
  }

  /** The path is never stored without organized having been stored just
      before it, and an error outcome never stores organized. */
  lemma FinishOrder(id: Id, outcome: Result<string, string>, failing: set<Write>, now: int)
    ensures var r := FinishAttempts(id, outcome, failing, now);
            forall i :: 0 <= i < |r| && r[i].write.SetOrganizedPath? ==>
              i > 0 && r[i - 1].write == SetStatus(id, Models.Organized) && r[i - 1].ok
    ensures outcome.Err? ==>
              forall a :: a in FinishAttempts(id, outcome, failing, now) ==>
                a.write != SetStatus(id, Models.Organized) && !a.write.SetOrganizedPath?
  {
  }

  // ---------------------------------------------------------------------------
  // Run: the tick interval
  // ---------------------------------------------------------------------------

  /** The tick interval after Run reads its configuration: any integer the key
      holds replaces the current one (zero and negative values included);
      otherwise the current interval stays. */
  function IntervalFrom(config: map<string, string>, current: int): (r: int)
    ensures KeyInterval !in config ==> r == current
    ensures KeyInterval in config && Atoi(config[KeyInterval]).None? ==> r == current
    ensures KeyInterval in config && Atoi(config[KeyInterval]).Some? ==> r == Atoi(config[KeyInterval]).value
  {
    if KeyInterval in config then
      match Atoi(config[KeyInterval])
      case Some(n) => n
      case None => current
    else current
  }

  /** A zero or negative setting is read like any other number and replaces
      the interval; Run then hands it to time.NewTicker, which refuses a
      duration that is not positive. */
  lemma NonPositiveIntervalAccepted(current: int)
    ensures IntervalFrom(map[KeyInterval := "0"], current) == 0
    ensures IntervalFrom(map[KeyInterval := "-5"], current) == -5
  {
    AtoiRejects("0", 0);
    var neg := "-5";
    assert SignOf(neg) == -1 && Unsigned(neg) == "5";
    assert DigitsValue("5") == 5 by {
      assert "5"[..0] == [];
    }
  }

  class MonitorSettings {
    var intervalSeconds: int
    const maxConcurrent: int

    constructor()
      ensures intervalSeconds == 30 && maxConcurrent == 3
    {
      intervalSeconds := 30;
      maxConcurrent := 3;
    }

    /** The first step of Run. */
    method LoadInterval(config: map<string, string>)
      modifies this
      ensures intervalSeconds == IntervalFrom(config, old(intervalSeconds))
    {
      if KeyInterval in config {
        var n := Atoi(config[KeyInterval]);
        if n.Some? {
          intervalSeconds := n.value;
        }
      }
    }
  }
}
