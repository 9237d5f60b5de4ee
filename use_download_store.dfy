/**
 * The downloads store of frontend/src/stores/useDownloadStore.ts: the list
 * of downloads with its loading and error flags, the handle of the polling
 * timer, and the status getters. Each API call is replaced by its outcome,
 * passed in; the timer's callback is the method PollTick, and the handle
 * window.setInterval would return is a parameter.
 */
module UseDownloadStore {
  import opened Strings
  import opened Ui
  import Models
  import Lists

  datatype Download = Download(id: string, title: string, author: string, status: Models.Status, progress: int)

  /** queued, downloading or organizing. */
  predicate IsActive(d: Download)
  {
    d.status == Models.Queued || d.status == Models.Downloading || d.status == Models.Organizing
  }

  predicate IsCompleted(d: Download) { d.status == Models.Completed }

  predicate IsFailed(d: Download) { d.status == Models.Failed }

  predicate IsOrganized(d: Download) { d.status == Models.Organized }

  /** Not the download with the given id. */
  function OtherId(id: string): Download -> bool
  {
    (d: Download) => d.id != id
  }

  const CreatedMessage: string := "Download started successfully"

  class DownloadStore {
    var downloads: seq<Download>
    var loading: bool
    var error: Option<string>
    /** The interval handle, or null. */
    var pollingInterval: Option<int>
    var notifications: seq<Notification>

    constructor()
      ensures downloads == [] && !loading && error == None && pollingInterval == None && notifications == []
    {
      downloads, loading, error, pollingInterval, notifications := [], false, None, None, [];
    }

    /** Whether a poll timer is running, as the store tests it. */
    predicate Polling()
      reads this
    {
      Truthy(pollingInterval)
    }

    /** fetchDownloads: the list is replaced; a failure keeps it and reports. */
    method FetchDownloads(response: Result<seq<Download>, ApiError>)
      modifies this
      ensures !loading && pollingInterval == old(pollingInterval)
      ensures response.Ok? ==>
                downloads == response.value && error == None && notifications == old(notifications)
      ensures response.Err? ==>
                var message := MessageOr(response.error, "Failed to fetch downloads");
                downloads == old(downloads) && error == Some(message) &&
                notifications == old(notifications) + [Notification(NoteError, message)]
    {
      loading, error := true, None;
      match response
      case Ok(list) =>
        downloads, loading := list, false;
      case Err(e) =>
        var message := MessageOr(e, "Failed to fetch downloads");
        error, loading := Some(message), false;
        notifications := notifications + [Notification(NoteError, message)];
    }

    /** createDownload: the new download goes first and polling starts
        unless a timer is already running; a failure changes no list. */
    method CreateDownload(response: Result<Download, ApiError>, intervalId: int) returns (created: Option<Download>)
      modifies this
      ensures loading == old(loading) && error == old(error)
      ensures response.Ok? ==>
                created == Some(response.value) && downloads == [response.value] + old(downloads) &&
                notifications == old(notifications) + [Notification(NoteSuccess, CreatedMessage)] &&
                pollingInterval == (if old(Polling()) then old(pollingInterval) else Some(intervalId))
      ensures response.Err? ==>
                created == None && downloads == old(downloads) && pollingInterval == old(pollingInterval) &&
                notifications == old(notifications) +
                                 [Notification(NoteError, MessageOr(response.error, "Failed to create download"))]
    {
      match response
      case Ok(download) =>
        downloads := [download] + downloads;
        notifications := notifications + [Notification(NoteSuccess, CreatedMessage)];
        if !Polling() {
          StartPolling(intervalId);
        }
        created := Some(download);
      case Err(e) =>
        notifications := notifications + [Notification(NoteError, MessageOr(e, "Failed to create download"))];
        created := None;
    }

    /** cancelDownload: after the API agrees, every entry with the id goes. */
    method CancelDownload(id: string, response: Option<ApiError>)
      modifies this
      ensures loading == old(loading) && error == old(error) && pollingInterval == old(pollingInterval)
      ensures response.None? ==>
                downloads == Lists.Filter(old(downloads), OtherId(id)) &&
                notifications == old(notifications) + [Notification(NoteSuccess, "Download cancelled")]
      ensures response.Some? ==>
                downloads == old(downloads) &&
                notifications == old(notifications) +
                                 [Notification(NoteError, MessageOr(response.value, "Failed to cancel download"))]
    {
      if response.None? {
        downloads := Lists.Filter(downloads, OtherId(id));
        notifications := notifications + [Notification(NoteSuccess, "Download cancelled")];
      } else {
        notifications := notifications + [Notification(NoteError, MessageOr(response.value, "Failed to cancel download"))];
      }
    }

    /** organizeDownload: after the API agrees, the list is fetched again. */
    method OrganizeDownload(id: string, response: Option<ApiError>, listing: Result<seq<Download>, ApiError>)
      modifies this
      ensures pollingInterval == old(pollingInterval)
      ensures response.Some? ==>
                downloads == old(downloads) && loading == old(loading) && error == old(error) &&
                notifications == old(notifications) +
                                 [Notification(NoteError, MessageOr(response.value, "Failed to organize download"))]
      ensures response.None? && listing.Ok? ==>
                downloads == listing.value && !loading && error == None &&
                notifications == old(notifications) + [Notification(NoteSuccess, "Organizing download...")]
      ensures response.None? && listing.Err? ==>
                var message := MessageOr(listing.error, "Failed to fetch downloads");
                downloads == old(downloads) && !loading && error == Some(message) &&
                notifications == old(notifications) + [Notification(NoteSuccess, "Organizing download..."),
                                                       Notification(NoteError, message)]
    {
      if response.Some? {
        notifications := notifications + [Notification(NoteError, MessageOr(response.value, "Failed to organize download"))];
        return;
      }
      notifications := notifications + [Notification(NoteSuccess, "Organizing download...")];
      FetchDownloads(listing);
    }

    /** startPolling: a no-op while a timer runs; otherwise the new timer's
        handle is kept. */
    method StartPolling(intervalId: int)
      modifies this
      ensures downloads == old(downloads) && loading == old(loading) && error == old(error)
      ensures notifications == old(notifications)
      ensures old(Polling()) ==> pollingInterval == old(pollingInterval)
      ensures !old(Polling()) ==> pollingInterval == Some(intervalId)
    {
      if Polling() {
        return;
      }
      pollingInterval := Some(intervalId);
    }

    /** stopPolling: a running timer is cleared and the handle nulled. */
    method StopPolling()
      modifies this
      ensures downloads == old(downloads) && loading == old(loading) && error == old(error)
      ensures notifications == old(notifications)
      ensures old(Polling()) ==> pollingInterval == None
      ensures !old(Polling()) ==> pollingInterval == old(pollingInterval)
    {
      if Polling() {
        pollingInterval := None;
      }
    }

    /** One firing of the poll timer: the list is replaced, and polling
        stops when nothing in it is active; a failed fetch changes nothing. */
    method PollTick(listing: Result<seq<Download>, ApiError>)
      modifies this
      ensures listing.Err? ==>
                downloads == old(downloads) && pollingInterval == old(pollingInterval)
      ensures listing.Ok? ==> downloads == listing.value
      ensures listing.Ok? && ActiveOf(listing.value) == [] && old(Polling()) ==> pollingInterval == None
      ensures listing.Ok? && (ActiveOf(listing.value) != [] || !old(Polling())) ==>
                pollingInterval == old(pollingInterval)
      ensures loading == old(loading) && error == old(error) && notifications == old(notifications)
    {
      if listing.Err? {
        return;
      }
      downloads := listing.value;
      if ActiveOf(listing.value) == [] {
        StopPolling();
      }
    }

    /** getActiveDownloads. */
    function GetActiveDownloads(): (r: seq<Download>)
      reads this
      ensures forall d :: d in r <==> d in downloads && IsActive(d)
    {
      ActiveOf(downloads)
    }

    /** getCompletedDownloads. */
    function GetCompletedDownloads(): (r: seq<Download>)
      reads this
      ensures forall d :: d in r <==> d in downloads && d.status == Models.Completed
    {
      Lists.Filter(downloads, IsCompleted)
    }

    /** getFailedDownloads. */
    function GetFailedDownloads(): (r: seq<Download>)
      reads this
      ensures forall d :: d in r <==> d in downloads && d.status == Models.Failed
    {
      Lists.Filter(downloads, IsFailed)
    }
  }

  function ActiveOf(ds: seq<Download>): seq<Download>
  {
    Lists.Filter(ds, IsActive)
  }

  // ---------------------------------------------------------------------------
  // What the getters and list operations hold
  // ---------------------------------------------------------------------------

  /** The active list is empty exactly when no download is queued,
      downloading or organizing: the test the poll tick applies. */
  lemma NoActive(ds: seq<Download>)
    ensures ActiveOf(ds) == [] <==> forall i :: 0 <= i < |ds| ==> !IsActive(ds[i])
  {
    if ActiveOf(ds) != [] {
      var d := ActiveOf(ds)[0];
      var i :| 0 <= i < |ds| && ds[i] == d;
    }
  }

  /** Every download is in exactly one of the three getters' lists or is
      organized. */
  lemma {:induction false} StatusPartition(ds: seq<Download>)
    ensures |ActiveOf(ds)| + |Lists.Filter(ds, IsCompleted)| + |Lists.Filter(ds, IsFailed)| +
            |Lists.Filter(ds, IsOrganized)| == |ds|
  {
    if ds != [] {
      StatusPartition(ds[..|ds| - 1]);
    }
  }

  /** The getters keep the list's order. */
  lemma ActiveOrder(a: seq<Download>, b: seq<Download>)
    ensures ActiveOf(a + b) == ActiveOf(a) + ActiveOf(b)
  {
    Lists.FilterConcat(a, b, IsActive);
  }

  /** Cancelling removes exactly the entries with the id and keeps the
      others in order. */
  lemma CancelRemovesId(ds: seq<Download>, id: string)
    ensures forall d :: d in Lists.Filter(ds, OtherId(id)) <==> d in ds && d.id != id
    ensures forall a, b :: ds == a + b ==>
              Lists.Filter(ds, OtherId(id)) == Lists.Filter(a, OtherId(id)) + Lists.Filter(b, OtherId(id))
  {
    forall a, b | ds == a + b
      ensures Lists.Filter(ds, OtherId(id)) == Lists.Filter(a, OtherId(id)) + Lists.Filter(b, OtherId(id))
    {
      Lists.FilterConcat(a, b, OtherId(id));
    }
  }

  /** Creating on an idle store starts polling with the new timer, and a
      later tick whose listing holds nothing active stops it again. */
  method CreateThenSettle(store: DownloadStore, d: Download, intervalId: int, listing: seq<Download>)
    modifies store
    requires !store.Polling() && intervalId != 0
    requires forall i :: 0 <= i < |listing| ==> !IsActive(listing[i])
    ensures store.downloads == listing && store.pollingInterval == None
  {
    var created := store.CreateDownload(Ok(d), intervalId);
    assert store.Polling();
    NoActive(listing);
    store.PollTick(Ok(listing));
  }
}
