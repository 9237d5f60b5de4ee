/**
 * The configuration store of frontend/src/stores/useConfigStore.ts: the
 * key/value configuration as last fetched or written. Each API call is
 * replaced by its outcome, passed in; for a batch of writes the outcome of
 * each write is an oracle over its key and value.
 */
module UseConfigStore {
  import opened Strings
  import opened Ui

  /** The outcome of `configApi.update(key, { value })`: None when it resolves. */
  type UpdateOracle = (string, string) -> Option<ApiError>

  const UpdatedMessage: string := "Configuration updated successfully"
  const UpdateFailedMessage: string := "Failed to update configuration"

  /** The number of writes that are rejected. */
  function Rejected(entries: seq<(string, string)>, api: UpdateOracle): (n: nat)
    ensures n <= |entries|
    ensures n == 0 <==> forall i :: 0 <= i < |entries| ==> api(entries[i].0, entries[i].1).None?
  {
    if entries == [] then 0
    else Rejected(entries[..|entries| - 1], api) + (if api(entries[|entries| - 1].0, entries[|entries| - 1].1).Some? then 1 else 0)
  }

  /** The reason of the first rejected write, in entry order. */
  function FirstRejection(entries: seq<(string, string)>, api: UpdateOracle): (e: Option<ApiError>)
    ensures e.Some? ==> exists i :: 0 <= i < |entries| && api(entries[i].0, entries[i].1) == e &&
                          forall j :: 0 <= j < i ==> api(entries[j].0, entries[j].1).None?
    ensures e.None? <==> forall i :: 0 <= i < |entries| ==> api(entries[i].0, entries[i].1).None?
  {
    if entries == [] then None
    else if api(entries[0].0, entries[0].1).Some? then api(entries[0].0, entries[0].1)
    else
      var rest := FirstRejection(entries[1..], api);
      assert forall i :: 0 < i < |entries| ==> entries[i] == entries[1..][i - 1];
      rest
  }

  /** The record the entries came from, as a map. */
  function EntriesMap(entries: seq<(string, string)>): (m: map<string, string>)
    ensures m.Keys == set i | 0 <= i < |entries| :: entries[i].0
  {
    if entries == [] then map[]
    else
      var last := entries[|entries| - 1];
      var m := EntriesMap(entries[..|entries| - 1])[last.0 := last.1];
      assert m.Keys == (set i | 0 <= i < |entries| - 1 :: entries[i].0) + {last.0};
      m
  }

  /** `${successes} config(s) updated, but ${failures} failed`. */
  function PartialMessage(successes: nat, failures: nat): string
  {
    FormatInt(successes) + " config(s) updated, but " + FormatInt(failures) + " failed"
  }

  /** `Promise.allSettled` over the writes, split into rejected and
      fulfilled, with the first rejection's reason. */
  method Settle(entries: seq<(string, string)>, api: UpdateOracle) returns (failures: nat, successes: nat, first: Option<ApiError>)
    ensures failures == Rejected(entries, api) && successes == |entries| - failures
    ensures first == FirstRejection(entries, api)
  {
    failures, successes, first := 0, 0, None;
    for i := 0 to |entries|
      invariant failures == Rejected(entries[..i], api) && successes == i - failures
      invariant first == FirstRejection(entries[..i], api)
    {
      assert entries[..i + 1][..i] == entries[..i];
      FirstRejectionExtend(entries[..i + 1], api);
      var outcome := api(entries[i].0, entries[i].1);
      if outcome.Some? {
        failures := failures + 1;
        if first.None? {
          first := outcome;
        }
      } else {
        successes := successes + 1;
      }
    }
    assert entries[..|entries|] == entries;
  }

  class ConfigStore {
    var config: map<string, string>
    var loading: bool
    var error: Option<string>
    var notifications: seq<Notification>

    constructor()
      ensures config == map[] && !loading && error == None && notifications == []
    {
      config, loading, error, notifications := map[], false, None, [];
    }

    /** fetchConfig: the configuration is replaced; a failure keeps it and reports. */
    method FetchConfig(response: Result<map<string, string>, ApiError>)
      modifies this
      ensures !loading
      ensures response.Ok? ==> config == response.value && error == None && notifications == old(notifications)
      ensures response.Err? ==>
                var message := MessageOr(response.error, "Failed to fetch configuration");
                config == old(config) && error == Some(message) &&
                notifications == old(notifications) + [Notification(NoteError, message)]
    {
      loading, error := true, None;
      match response
      case Ok(configs) =>
        config, loading := configs, false;
      case Err(e) =>
        var message := MessageOr(e, "Failed to fetch configuration");
        error, loading := Some(message), false;
        notifications := notifications + [Notification(NoteError, message)];
    }

    /** updateConfig: the key takes the value only when the API accepts it. */
    method UpdateConfig(key: string, value: string, response: Option<ApiError>) returns (ok: bool)
      modifies this
      ensures ok <==> response.None?
      ensures ok ==> config == old(config)[key := value] &&
                     notifications == old(notifications) + [Notification(NoteSuccess, UpdatedMessage)]
      ensures !ok ==> config == old(config) &&
                      notifications == old(notifications) +
                                       [Notification(NoteError, MessageOr(response.value, UpdateFailedMessage))]
      ensures loading == old(loading) && error == old(error)
    {
      if response.Some? {
        notifications := notifications + [Notification(NoteError, MessageOr(response.value, UpdateFailedMessage))];
        return false;
      }
      config := config[key := value];
      notifications := notifications + [Notification(NoteSuccess, UpdatedMessage)];
      ok := true;
    }

    /** updateMultipleConfigs: every write is attempted; the configuration
        takes the updates only when all of them succeed (an empty batch
        included). Mixed outcomes warn with the counts; a batch that fails
        entirely reports the first rejection. */
    method UpdateMultipleConfigs(entries: seq<(string, string)>, api: UpdateOracle) returns (ok: bool)
      modifies this
      ensures ok <==> Rejected(entries, api) == 0
      ensures ok ==> config == old(config) + EntriesMap(entries) &&
                     notifications == old(notifications) + [Notification(NoteSuccess, UpdatedMessage)]
      ensures !ok ==> config == old(config)
      ensures 0 < Rejected(entries, api) < |entries| ==>
                notifications == old(notifications) +
                  [Notification(NoteWarning, PartialMessage(|entries| - Rejected(entries, api), Rejected(entries, api)))]
      ensures 0 < Rejected(entries, api) == |entries| ==>
                notifications == old(notifications) +
                  [Notification(NoteError, MessageOr(FirstRejection(entries, api).value, UpdateFailedMessage))]
      ensures loading == old(loading) && error == old(error)
    {
      var failures, successes, first := Settle(entries, api);
      if failures > 0 && successes > 0 {
        assert PartialMessage(successes, failures) ==
               PartialMessage(|entries| - Rejected(entries, api), Rejected(entries, api));
        notifications := notifications + [Notification(NoteWarning, PartialMessage(successes, failures))];
        return false;
      }
      if failures > 0 {
        notifications := notifications + [Notification(NoteError, MessageOr(first.value, UpdateFailedMessage))];
        return false;
      }
      config := config + EntriesMap(entries);
      notifications := notifications + [Notification(NoteSuccess, UpdatedMessage)];
      ok := true;
    }

    /** getConfigValue: `config[key] ?? defaultValue`. */
    function GetConfigValue(key: string, defaultValue: Option<string>): (r: Option<string>)
      reads this
      ensures key in config ==> r == Some(config[key])
      ensures key !in config ==> r == defaultValue
    {
      if key in config then Some(config[key]) else defaultValue
    }
  }

  /** The first rejection of a longer list is the shorter list's, or the
      last write's when the shorter list has none. */
  lemma FirstRejectionExtend(entries: seq<(string, string)>, api: UpdateOracle)
    requires entries != []
    ensures var init := entries[..|entries| - 1];
            FirstRejection(entries, api) ==
              if FirstRejection(init, api).Some? then FirstRejection(init, api)
              else api(entries[|entries| - 1].0, entries[|entries| - 1].1)
  {
    var init := entries[..|entries| - 1];
    assert forall j :: 0 <= j < |init| ==> init[j] == entries[j];
    if FirstRejection(init, api).Some? {
      var i :| 0 <= i < |init| && api(init[i].0, init[i].1) == FirstRejection(init, api) &&
                forall j :: 0 <= j < i ==> api(init[j].0, init[j].1).None?;
      FirstRejectionAt(entries, api, i);
      FirstRejectionAt(init, api, i);
    } else if api(entries[|entries| - 1].0, entries[|entries| - 1].1).Some? {
      FirstRejectionAt(entries, api, |entries| - 1);
    }
  }

  /** The first rejection is the one at the first rejected index. */
  lemma {:induction false} FirstRejectionAt(entries: seq<(string, string)>, api: UpdateOracle, i: nat)
    requires i < |entries| && api(entries[i].0, entries[i].1).Some?
    requires forall j :: 0 <= j < i ==> api(entries[j].0, entries[j].1).None?
    ensures FirstRejection(entries, api) == api(entries[i].0, entries[i].1)
  {
    if i > 0 {
      FirstRejectionAt(entries[1..], api, i - 1);
    }
  }

  /** A read after a successful write sees the value, whatever the default;
      a rejected write leaves every read as it was. */
  method WriteThenRead(store: ConfigStore, key: string, value: string, response: Option<ApiError>,
                       defaultValue: Option<string>) returns (read: Option<string>)
    modifies store
    ensures response.None? ==> read == Some(value)
    ensures response.Some? ==> read == old(store.GetConfigValue(key, defaultValue))
  {
    var ok := store.UpdateConfig(key, value, response);
    read := store.GetConfigValue(key, defaultValue);
  }
}
