/**
 * The provider store of frontend/src/stores/useProviderStore.ts: the
 * configured search providers and the provider types, kept in step with the
 * API. Each API call is replaced by its outcome, passed in.
 */
module UseProviderStore {
  import opened Strings
  import opened Ui
  import SearchModels
  import Lists

  /** A provider configuration as the frontend holds it (timestamps left out). */
  datatype ProviderConfig = ProviderConfig(
    providerType: string,
    displayName: string,
    enabled: bool,
    config: SearchModels.ConfigMap)

  /** The shapes the provider list response can take: an array, an object
      that may carry a `providers` array, or nothing. */
  datatype ListResponse =
    | ArrayResponse(items: seq<ProviderConfig>)
    | ObjectResponse(providers: Option<seq<ProviderConfig>>)
    | NoResponse

  /** The shapes the provider types response can take. */
  datatype TypesResponse =
    | TypesArray(types: seq<SearchModels.ProviderType>)
    | TypesObject(provider_types: Option<seq<SearchModels.ProviderType>>,
                  providerTypes: Option<seq<SearchModels.ProviderType>>)
    | NoTypes

  datatype TestResult = TestResult(success: bool, message: string)

  /** `Array.isArray(r) ? r : r?.providers || []` (an array is always truthy). */
  function Providers(r: ListResponse): (ps: seq<ProviderConfig>)
    ensures r.ArrayResponse? ==> ps == r.items
    ensures r.ObjectResponse? && r.providers.Some? ==> ps == r.providers.value
    ensures r.NoResponse? || r == ObjectResponse(None) ==> ps == []
  {
    match r
    case ArrayResponse(items) => items
    case ObjectResponse(providers) => if providers.Some? then providers.value else []
    case NoResponse => []
  }

  /** `Array.isArray(r) ? r : r?.provider_types || r?.providerTypes || []`. */
  function ProviderTypes(r: TypesResponse): (ts: seq<SearchModels.ProviderType>)
    ensures r.TypesArray? ==> ts == r.types
    ensures r.TypesObject? && r.provider_types.Some? ==> ts == r.provider_types.value
    ensures r.TypesObject? && r.provider_types.None? && r.providerTypes.Some? ==> ts == r.providerTypes.value
    ensures r.NoTypes? ==> ts == []
  {
    match r
    case TypesArray(types) => types
    case TypesObject(snake, camel) =>
      if snake.Some? then snake.value else if camel.Some? then camel.value else []
    case NoTypes => []
  }

  predicate OfType(t: string, p: ProviderConfig) { p.providerType == t }

  function IsType(t: string): ProviderConfig -> bool { (p: ProviderConfig) => OfType(t, p) }

  function NotType(t: string): ProviderConfig -> bool { (p: ProviderConfig) => !OfType(t, p) }

  function Replace(updated: ProviderConfig): ProviderConfig -> ProviderConfig { (_: ProviderConfig) => updated }

  function SetEnabled(enabled: bool): ProviderConfig -> ProviderConfig { (p: ProviderConfig) => p.(enabled := enabled) }

  function ToggledMessage(enabled: bool): string
  {
    "Provider " + (if enabled then "enabled" else "disabled")
  }

  class ProviderStore {
    var providers: seq<ProviderConfig>
    var providerTypes: seq<SearchModels.ProviderType>
    var loading: bool
    var error: Option<string>
    var notifications: seq<Notification>

    constructor()
      ensures providers == [] && providerTypes == [] && !loading && error == None && notifications == []
    {
      providers, providerTypes, loading, error, notifications := [], [], false, None, [];
    }

    /** fetchProviders: the list is normalised from whichever shape arrives. */
    method FetchProviders(response: Result<ListResponse, ApiError>)
      modifies this
      ensures !loading && providerTypes == old(providerTypes)
      ensures response.Ok? ==>
                providers == Providers(response.value) && error == None && notifications == old(notifications)
      ensures response.Err? ==>
                var message := MessageOr(response.error, "Failed to fetch providers");
                providers == old(providers) && error == Some(message) &&
                notifications == old(notifications) + [Notification(NoteError, message)]
    {
      loading, error := true, None;
      match response
      case Ok(r) =>
        providers, loading := Providers(r), false;
      case Err(e) =>
        var message := MessageOr(e, "Failed to fetch providers");
        error, loading := Some(message), false;
        notifications := notifications + [Notification(NoteError, message)];
    }

    /** fetchProviderTypes. */
    method FetchProviderTypes(response: Result<TypesResponse, ApiError>)
      modifies this
      ensures providers == old(providers) && loading == old(loading) && error == old(error)
      ensures response.Ok? ==> providerTypes == ProviderTypes(response.value) && notifications == old(notifications)
      ensures response.Err? ==>
                providerTypes == old(providerTypes) &&
                notifications == old(notifications) +
                                 [Notification(NoteError, MessageOr(response.error, "Failed to fetch provider types"))]
    {
      match response
      case Ok(r) =>
        providerTypes := ProviderTypes(r);
      case Err(e) =>
        notifications := notifications + [Notification(NoteError, MessageOr(e, "Failed to fetch provider types"))];
    }

    /** createProvider: the created provider is appended. */
    method CreateProvider(response: Result<ProviderConfig, ApiError>) returns (ok: bool)
      modifies this
      ensures ok <==> response.Ok?
      ensures ok ==> providers == old(providers) + [response.value] &&
                     notifications == old(notifications) + [Notification(NoteSuccess, "Provider created successfully")]
      ensures !ok ==> providers == old(providers) &&
                      notifications == old(notifications) +
                                       [Notification(NoteError, MessageOr(response.error, "Failed to create provider"))]
      ensures providerTypes == old(providerTypes) && loading == old(loading) && error == old(error)
    {
      match response
      case Ok(p) =>
        providers := providers + [p];
        notifications := notifications + [Notification(NoteSuccess, "Provider created successfully")];
        ok := true;
      case Err(e) =>
        notifications := notifications + [Notification(NoteError, MessageOr(e, "Failed to create provider"))];
        ok := false;
    }

    /** updateProvider: every entry of the type becomes the updated provider. */
    method UpdateProvider(t: string, response: Result<ProviderConfig, ApiError>) returns (ok: bool)
      modifies this
      ensures ok <==> response.Ok?
      ensures ok ==> providers == Lists.MapWhere(old(providers), IsType(t), Replace(response.value)) &&
                     notifications == old(notifications) + [Notification(NoteSuccess, "Provider updated successfully")]
      ensures !ok ==> providers == old(providers) &&
                      notifications == old(notifications) +
                                       [Notification(NoteError, MessageOr(response.error, "Failed to update provider"))]
      ensures providerTypes == old(providerTypes) && loading == old(loading) && error == old(error)
    {
      match response
      case Ok(updated) =>
        providers := Lists.MapWhere(providers, IsType(t), Replace(updated));
        notifications := notifications + [Notification(NoteSuccess, "Provider updated successfully")];
        ok := true;
      case Err(e) =>
        notifications := notifications + [Notification(NoteError, MessageOr(e, "Failed to update provider"))];
        ok := false;
    }

    /** deleteProvider: every entry of the type goes, after the API agrees. */
    method DeleteProvider(t: string, response: Option<ApiError>)
      modifies this
      ensures response.None? ==>
                providers == Lists.Filter(old(providers), NotType(t)) &&
                notifications == old(notifications) + [Notification(NoteSuccess, "Provider deleted successfully")]
      ensures response.Some? ==>
                providers == old(providers) &&
                notifications == old(notifications) +
                                 [Notification(NoteError, MessageOr(response.value, "Failed to delete provider"))]
      ensures providerTypes == old(providerTypes) && loading == old(loading) && error == old(error)
    {
      if response.None? {
        providers := Lists.Filter(providers, NotType(t));
        notifications := notifications + [Notification(NoteSuccess, "Provider deleted successfully")];
      } else {
        notifications := notifications + [Notification(NoteError, MessageOr(response.value, "Failed to delete provider"))];
      }
    }

    /** toggleProvider: the entries of the type take the flag, after the API agrees. */
    method ToggleProvider(t: string, enabled: bool, response: Option<ApiError>)
      modifies this
      ensures response.None? ==>
                providers == Lists.MapWhere(old(providers), IsType(t), SetEnabled(enabled)) &&
                notifications == old(notifications) + [Notification(NoteSuccess, ToggledMessage(enabled))]
      ensures response.Some? ==>
                providers == old(providers) &&
                notifications == old(notifications) +
                                 [Notification(NoteError, MessageOr(response.value, "Failed to toggle provider"))]
      ensures providerTypes == old(providerTypes) && loading == old(loading) && error == old(error)
    {
      if response.None? {
        providers := Lists.MapWhere(providers, IsType(t), SetEnabled(enabled));
        notifications := notifications + [Notification(NoteSuccess, ToggledMessage(enabled))];
      } else {
        notifications := notifications + [Notification(NoteError, MessageOr(response.value, "Failed to toggle provider"))];
      }
    }

    /** testConnection: the test's own verdict, posted with its message; a
        failed request is a failed test. */
    method TestConnection(t: string, response: Result<TestResult, ApiError>) returns (ok: bool)
      modifies this
      ensures ok <==> response.Ok? && response.value.success
      ensures response.Ok? ==>
                notifications == old(notifications) +
                  [Notification(if response.value.success then NoteSuccess else NoteError, response.value.message)]
      ensures response.Err? ==>
                notifications == old(notifications) +
                                 [Notification(NoteError, MessageOr(response.error, "Connection test failed"))]
      ensures providers == old(providers) && providerTypes == old(providerTypes)
      ensures loading == old(loading) && error == old(error)
    {
      match response
      case Ok(result) =>
        notifications := notifications + [Notification(if result.success then NoteSuccess else NoteError, result.message)];
        ok := result.success;
      case Err(e) =>
        notifications := notifications + [Notification(NoteError, MessageOr(e, "Connection test failed"))];
        ok := false;
    }
  }

  // ---------------------------------------------------------------------------
  // What the list operations leave alone
  // ---------------------------------------------------------------------------

  /** Updating a type leaves the entries of every other type as they were,
      in order, when the updated provider is of that type. */
  lemma UpdateKeepsOthers(ps: seq<ProviderConfig>, t: string, updated: ProviderConfig)
    requires updated.providerType == t
    ensures Lists.Filter(Lists.MapWhere(ps, IsType(t), Replace(updated)), NotType(t)) == Lists.Filter(ps, NotType(t))
  {
    Lists.MapWhereKeepsOthers(ps, IsType(t), Replace(updated), NotType(t));
  }

  /** Toggling changes only the enabled flag, and only on entries of the type. */
  lemma ToggleKeepsOthers(ps: seq<ProviderConfig>, t: string, enabled: bool)
    ensures Lists.Filter(Lists.MapWhere(ps, IsType(t), SetEnabled(enabled)), NotType(t)) == Lists.Filter(ps, NotType(t))
    ensures forall i :: 0 <= i < |ps| ==>
              Lists.MapWhere(ps, IsType(t), SetEnabled(enabled))[i] ==
                (if ps[i].providerType == t then ps[i].(enabled := enabled) else ps[i])
  {
    Lists.MapWhereKeepsOthers(ps, IsType(t), SetEnabled(enabled), NotType(t));
  }

  /** Deleting removes exactly the entries of the type, and deleting after
      a toggle or an update of that type gives the same list as deleting
      straight away. */
  lemma DeleteRemovesType(ps: seq<ProviderConfig>, t: string, enabled: bool, updated: ProviderConfig)
    requires updated.providerType == t
    ensures forall p :: p in Lists.Filter(ps, NotType(t)) <==> p in ps && p.providerType != t
    ensures Lists.Filter(Lists.MapWhere(ps, IsType(t), SetEnabled(enabled)), NotType(t)) == Lists.Filter(ps, NotType(t))
    ensures Lists.Filter(Lists.MapWhere(ps, IsType(t), Replace(updated)), NotType(t)) == Lists.Filter(ps, NotType(t))
  {
    ToggleKeepsOthers(ps, t, enabled);
    UpdateKeepsOthers(ps, t, updated);
  }
}
