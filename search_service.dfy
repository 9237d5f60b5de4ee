/**
 * The search service of backend/internal/search/search_service.go: it holds
 * the providers built from the enabled configurations in the provider
 * repository, searches them, and manages the configurations, reloading the
 * providers after every successful change.
 *
 * The repository (internal/persistence/sqlite/providers.go) is a map from
 * provider type to configuration; whether a statement fails is decided by a
 * fixed set of failing operations.
 */
module SearchService {
  import opened Strings
  import SearchModels
  import Registry
  import SearchAggregate

  // ---------------------------------------------------------------------------
  // The provider repository
  // ---------------------------------------------------------------------------

  /** The repository's statements, for failure injection. */
  datatype RepoOp = OpCreate | OpUpdate | OpUpdateEnabled | OpDelete | OpExists | OpListEnabled

  datatype RepoError =
    | StatementFailed(op: RepoOp)  // the driver's error, wrapped
    | NotFound(providerType: string) // "provider not found"

  /** A listing of the enabled configurations: each listed once, each taken
      from its row. The order is not constrained. */
  ghost predicate EnabledListing(listed: seq<SearchModels.ProviderConfig>, rows: map<string, SearchModels.ProviderConfig>)
  {
    (forall i :: 0 <= i < |listed| ==>
       listed[i].providerType in rows && rows[listed[i].providerType] == listed[i] && listed[i].enabled) &&
    (forall t :: t in rows && rows[t].enabled ==> exists i :: 0 <= i < |listed| && listed[i].providerType == t) &&
    (forall i, j :: 0 <= i < j < |listed| ==> listed[i].providerType != listed[j].providerType)
  }

  class ProviderRepo {
    /** The providers table, keyed by its primary key provider_type. */
    var rows: map<string, SearchModels.ProviderConfig>
    const failing: set<RepoOp>

    /** Every row is stored under its own type. */
    ghost predicate Valid()
      reads this
    {
      forall t :: t in rows ==> rows[t].providerType == t
    }

    constructor(rows: map<string, SearchModels.ProviderConfig>, failing: set<RepoOp>)
      requires forall t :: t in rows ==> rows[t].providerType == t
      ensures this.rows == rows && this.failing == failing && Valid()
    {
      this.rows := rows;
      this.failing := failing;
    }

    /** Create: an INSERT, refused by the primary key when the type exists. */
    method Create(config: SearchModels.ProviderConfig) returns (err: Option<RepoError>)
      requires Valid()
      modifies this
      ensures Valid()
      ensures err.None? <==> OpCreate !in failing && config.providerType !in old(rows)
      ensures err.None? ==> rows == old(rows)[config.providerType := config]
      ensures err.Some? ==> rows == old(rows) && err == Some(StatementFailed(OpCreate))
    {
      if OpCreate in failing || config.providerType in rows {
        return Some(StatementFailed(OpCreate));
      }
      rows := rows[config.providerType := config];
      err := None;
    }

    /** Update: the row of the configuration's type is replaced; no such row
        is "provider not found". */
    method Update(config: SearchModels.ProviderConfig) returns (err: Option<RepoError>)
      requires Valid()
      modifies this
      ensures Valid()
      ensures OpUpdate in failing ==> err == Some(StatementFailed(OpUpdate))
      ensures OpUpdate !in failing && config.providerType !in old(rows) ==> err == Some(NotFound(config.providerType))
      ensures err.None? <==> OpUpdate !in failing && config.providerType in old(rows)
      ensures err.None? ==> rows == old(rows)[config.providerType := config]
      ensures err.Some? ==> rows == old(rows)
    {
      if OpUpdate in failing {
        return Some(StatementFailed(OpUpdate));
      }
      if config.providerType !in rows {
        return Some(NotFound(config.providerType));
      }
      rows := rows[config.providerType := config];
      err := None;
    }

    /** UpdateEnabled: only the enabled flag of the row changes. */
    method UpdateEnabled(providerType: string, enabled: bool) returns (err: Option<RepoError>)
      requires Valid()
      modifies this
      ensures Valid()
      ensures OpUpdateEnabled in failing ==> err == Some(StatementFailed(OpUpdateEnabled))
      ensures OpUpdateEnabled !in failing && providerType !in old(rows) ==> err == Some(NotFound(providerType))
      ensures err.None? <==> OpUpdateEnabled !in failing && providerType in old(rows)
      ensures err.None? ==> rows == old(rows)[providerType := old(rows)[providerType].(enabled := enabled)]
      ensures err.Some? ==> rows == old(rows)
    {
      if OpUpdateEnabled in failing {
        return Some(StatementFailed(OpUpdateEnabled));
      }
      if providerType !in rows {
        return Some(NotFound(providerType));
      }
      rows := rows[providerType := rows[providerType].(enabled := enabled)];
      err := None;
    }

    /** Delete: the row goes; no such row is "provider not found". */
    method Delete(providerType: string) returns (err: Option<RepoError>)
      requires Valid()
      modifies this
      ensures Valid()
      ensures OpDelete in failing ==> err == Some(StatementFailed(OpDelete))
      ensures OpDelete !in failing && providerType !in old(rows) ==> err == Some(NotFound(providerType))
      ensures err.None? <==> OpDelete !in failing && providerType in old(rows)
      ensures err.None? ==> rows == old(rows) - {providerType}
      ensures err.Some? ==> rows == old(rows)
    {
      if OpDelete in failing {
        return Some(StatementFailed(OpDelete));
      }
      if providerType !in rows {
        return Some(NotFound(providerType));
      }
      rows := rows - {providerType};
      err := None;
    }

    /** Exists: COUNT(*) > 0 for the type. */
    method Exists(providerType: string) returns (r: Result<bool, RepoError>)
      ensures OpExists in failing <==> r.Err?
      ensures r.Err? ==> r.error == StatementFailed(OpExists)
      ensures r.Ok? ==> (r.value <==> providerType in rows)
    {
      if OpExists in failing {
        return Err(StatementFailed(OpExists));
      }
      r := Ok(providerType in rows);
    }

    /** ListEnabled: the rows with enabled = 1, in an order the model leaves open. */
    method ListEnabled() returns (r: Result<seq<SearchModels.ProviderConfig>, RepoError>)
      requires Valid()
      ensures OpListEnabled in failing <==> r.Err?
      ensures r.Err? ==> r.error == StatementFailed(OpListEnabled)
      ensures r.Ok? ==> EnabledListing(r.value, rows)
    {
      if OpListEnabled in failing {
        return Err(StatementFailed(OpListEnabled));
      }
      var listed: seq<SearchModels.ProviderConfig> := [];
      var remaining := rows.Keys;
      while remaining != {}
        invariant remaining <= rows.Keys
        invariant forall i :: 0 <= i < |listed| ==>
                    listed[i].providerType in rows.Keys - remaining &&
                    rows[listed[i].providerType] == listed[i] && listed[i].enabled
        invariant forall t :: t in rows.Keys - remaining && rows[t].enabled ==>
                    exists i :: 0 <= i < |listed| && listed[i].providerType == t
        invariant forall i, j :: 0 <= i < j < |listed| ==> listed[i].providerType != listed[j].providerType
        decreases |remaining|
      {
        var t :| t in remaining;
        if rows[t].enabled {
          ghost var before := listed;
          listed := listed + [rows[t]];
          assert forall i :: 0 <= i < |before| ==> listed[i] == before[i];
          assert listed[|listed| - 1].providerType == t;
        }
        remaining := remaining - {t};
      }
      r := Ok(listed);
    }
  }

  // ---------------------------------------------------------------------------
  // Building the providers
  // ---------------------------------------------------------------------------

  /** What the registry's Create gives for one configuration. */
  function Build(factories: map<string, Registry.Factory>, config: SearchModels.ProviderConfig)
    : Result<SearchModels.Provider, Registry.RegistryError>
  {
    if config.providerType in factories then Registry.Built(factories[config.providerType](config.config))
    else Err(Registry.UnknownType(config.providerType))
  }

  /** The providers built from a listing, in listing order, skipping those
      whose construction fails. */
  function Instantiate(factories: map<string, Registry.Factory>, listed: seq<SearchModels.ProviderConfig>)
    : seq<SearchModels.Provider>
  {
    if listed == [] then []
    else
      var last := listed[|listed| - 1];
      Instantiate(factories, listed[..|listed| - 1]) +
        (if Build(factories, last).Ok? then [Build(factories, last).value] else [])
  }

  /** Each loaded provider comes from some listed configuration, and there are
      never more providers than configurations. */
  lemma {:induction false} InstantiateFromListed(factories: map<string, Registry.Factory>,
                                                 listed: seq<SearchModels.ProviderConfig>)
    ensures |Instantiate(factories, listed)| <= |listed|
    ensures forall p :: p in Instantiate(factories, listed) ==>
              exists i :: 0 <= i < |listed| && Build(factories, listed[i]) == Ok(p)
  {
    if listed != [] {
      var init := listed[..|listed| - 1];
      InstantiateFromListed(factories, init);
      forall p | p in Instantiate(factories, listed)
        ensures exists i :: 0 <= i < |listed| && Build(factories, listed[i]) == Ok(p)
      {
        if p in Instantiate(factories, init) {
          var i :| 0 <= i < |init| && Build(factories, init[i]) == Ok(p);
          assert listed[i] == init[i];
        } else {
          assert Build(factories, listed[|listed| - 1]) == Ok(p);
        }
      }
    }
  }

  /** When every configuration builds, the providers are exactly the built
      ones, one per configuration and in listing order. */
  lemma {:induction false} InstantiateAllBuilt(factories: map<string, Registry.Factory>,
                                               listed: seq<SearchModels.ProviderConfig>)
    requires forall i :: 0 <= i < |listed| ==> Build(factories, listed[i]).Ok?
    ensures |Instantiate(factories, listed)| == |listed|
    ensures forall i :: 0 <= i < |listed| ==> Instantiate(factories, listed)[i] == Build(factories, listed[i]).value
  {
    if listed != [] {
      var init := listed[..|listed| - 1];
      assert forall i :: 0 <= i < |init| ==> init[i] == listed[i];
      InstantiateAllBuilt(factories, init);
    }
  }

  /** Building distributes over consecutive parts of a listing. */
  lemma {:induction false} InstantiateConcat(factories: map<string, Registry.Factory>,
                                             a: seq<SearchModels.ProviderConfig>, b: seq<SearchModels.ProviderConfig>)
    ensures Instantiate(factories, a + b) == Instantiate(factories, a) + Instantiate(factories, b)
    decreases |b|
  {
    if b == [] {
      assert a + b == a;
    } else {
      var b' := b[..|b| - 1];
      assert (a + b)[..|a + b| - 1] == a + b';
      InstantiateConcat(factories, a, b');
    }
  }

  // ---------------------------------------------------------------------------
  // The service
  // ---------------------------------------------------------------------------

  datatype ServiceError =
    | InvalidType(cause: Registry.RegistryError)    // "invalid provider type"
    | InvalidConfig(cause: Registry.RegistryError)  // "invalid configuration"
    | ExistsCheckFailed(repoError: RepoError)       // "failed to check existence"
    | AlreadyConfigured(providerType: string)       // "provider already configured"
    | RepoFailed(repoError: RepoError)              // the repository's error, as is
    | ListFailed(repoError: RepoError)              // "failed to list enabled providers"

  class SearchService {
    const repo: ProviderRepo
    const registry: Registry.Registry
    var providers: seq<SearchModels.Provider>

    ghost predicate Valid()
      reads this, repo
    {
      repo.Valid()
    }

    /** The outcome of a reload: a failed listing keeps the providers held
        before; otherwise they are those built from the listing. */
    ghost predicate Reloaded(err: Option<ServiceError>, listed: seq<SearchModels.ProviderConfig>,
                             before: seq<SearchModels.Provider>)
      reads this, repo, registry
    {
      (err.Some? <==> OpListEnabled in repo.failing) &&
      (err.Some? ==> err == Some(ListFailed(StatementFailed(OpListEnabled))) && providers == before) &&
      (err.None? ==> EnabledListing(listed, repo.rows) && providers == Instantiate(registry.factories, listed))
    }

    /** NewSearchService: the providers are loaded at once; a failed listing
        is only logged and leaves none. */
    constructor(repo: ProviderRepo, registry: Registry.Registry)
      requires repo.Valid()
      ensures this.repo == repo && this.registry == registry && Valid()
      ensures OpListEnabled in repo.failing ==> providers == []
      ensures OpListEnabled !in repo.failing ==>
                exists listed :: EnabledListing(listed, repo.rows) && providers == Instantiate(registry.factories, listed)
    {
      this.repo := repo;
      this.registry := registry;
      providers := [];
      new;
      var err, listed := ReloadProviders();
    }

    /** reloadProviders. */
    method ReloadProviders() returns (err: Option<ServiceError>, ghost listed: seq<SearchModels.ProviderConfig>)
      requires Valid()
      modifies this
      ensures Reloaded(err, listed, old(providers))
    {
      var configs := repo.ListEnabled();
      if configs.Err? {
        return Some(ListFailed(configs.error)), [];
      }
      var enabled := configs.value;
      var loaded: seq<SearchModels.Provider> := [];
      for i := 0 to |enabled|
        invariant loaded == Instantiate(registry.factories, enabled[..i])
      {
        assert enabled[..i + 1][..i] == enabled[..i];
        var provider := registry.Create(enabled[i].providerType, enabled[i].config);
        if provider.Err? {
          continue;
        }
        loaded := loaded + [provider.value];
      }
      assert enabled[..|enabled|] == enabled;
      listed := enabled;
      providers := loaded;
      err := None;
    }

    /** Search, over the providers currently loaded. */
    method Search(query: string, providerName: string, search: SearchAggregate.SearchOracle)
      returns (r: Result<seq<SearchModels.SearchResult>, SearchAggregate.SearchError>)
      ensures query == [] ==> r == Err(SearchAggregate.EmptyQuery)
      ensures query != [] && providerName != [] ==>
                match SearchAggregate.FirstNamed(providers, providerName)
                case None => r == Err(SearchAggregate.ProviderNotFound(providerName))
                case Some(i) => r == SearchAggregate.Answer(search(providers[i], query))
      ensures query != [] && providerName == [] ==>
                (r.Err? <==> SearchAggregate.Gathered(providers, query, search) == [] && |providers| > 0)
      ensures query != [] && providerName == [] && r.Err? ==> r.error == SearchAggregate.AllFailed
      ensures query != [] && providerName == [] && r.Ok? ==>
                r.value == SearchAggregate.Gathered(providers, query, search)
    {
      r := SearchAggregate.SearchProviders(providers, query, providerName, search);
    }

    /** ListActiveProviders: the loaded providers' names, in order. */
    method ListActiveProviders() returns (names: seq<string>)
      ensures |names| == |providers|
      ensures forall i :: 0 <= i < |providers| ==> names[i] == SearchModels.Name(providers[i])
    {
      names := SearchAggregate.ListNames(providers);
    }

    /** CreateProvider: the type must be known, the settings valid and the
        type not yet configured; only then is the row written and the
        providers reloaded. */
    method CreateProvider(config: SearchModels.ProviderConfig)
      returns (err: Option<ServiceError>, ghost listed: seq<SearchModels.ProviderConfig>)
      requires Valid()
      modifies this, repo
      ensures Valid()
      ensures config.providerType !in registry.types ==>
                err == Some(InvalidType(Registry.UnknownType(config.providerType)))
      ensures config.providerType in registry.types &&
              !Registry.AllSatisfied(registry.types[config.providerType].schema, config.config) ==>
                err.Some? && err.value.InvalidConfig?
      ensures old(Written(config)) ==>
                repo.rows == old(repo.rows)[config.providerType := config] && Reloaded(err, listed, old(providers))
      ensures !old(Written(config)) ==> err.Some? && repo.rows == old(repo.rows) && providers == old(providers)
      ensures config.providerType in registry.types &&
              Registry.AllSatisfied(registry.types[config.providerType].schema, config.config) ==>
                (OpExists in repo.failing ==> err == Some(ExistsCheckFailed(StatementFailed(OpExists)))) &&
                (OpExists !in repo.failing && config.providerType in old(repo.rows) ==>
                   err == Some(AlreadyConfigured(config.providerType)))
    {
      var typeInfo := registry.GetType(config.providerType);
      if typeInfo.Err? {
        return Some(InvalidType(typeInfo.error)), [];
      }
      var invalid := registry.ValidateConfig(config.providerType, config.config);
      if invalid.Some? {
        return Some(InvalidConfig(invalid.value)), [];
      }
      var present := repo.Exists(config.providerType);
      if present.Err? {
        return Some(ExistsCheckFailed(present.error)), [];
      }
      if present.value {
        return Some(AlreadyConfigured(config.providerType)), [];
      }
      var created := repo.Create(config);
      if created.Some? {
        return Some(RepoFailed(created.value)), [];
      }
      err, listed := ReloadProviders();
    }

    /** Whether CreateProvider gets as far as writing the row. */
    ghost predicate Written(config: SearchModels.ProviderConfig)
      reads this, repo, registry
    {
      config.providerType in registry.types &&
      Registry.AllSatisfied(registry.types[config.providerType].schema, config.config) &&
      OpExists !in repo.failing && config.providerType !in repo.rows && OpCreate !in repo.failing
    }

    /** UpdateProvider: the type must be known and the settings valid; the
        providers are reloaded only after the row is updated. */
    method UpdateProvider(config: SearchModels.ProviderConfig)
      returns (err: Option<ServiceError>, ghost listed: seq<SearchModels.ProviderConfig>)
      requires Valid()
      modifies this, repo
      ensures Valid()
      ensures config.providerType !in registry.types ==>
                err == Some(InvalidType(Registry.UnknownType(config.providerType)))
      ensures config.providerType in registry.types &&
              !Registry.AllSatisfied(registry.types[config.providerType].schema, config.config) ==>
                err.Some? && err.value.InvalidConfig?
      ensures old(Updatable(config)) ==>
                repo.rows == old(repo.rows)[config.providerType := config] && Reloaded(err, listed, old(providers))
      ensures !old(Updatable(config)) ==> err.Some? && repo.rows == old(repo.rows) && providers == old(providers)
    {
      var typeInfo := registry.GetType(config.providerType);
      if typeInfo.Err? {
        return Some(InvalidType(typeInfo.error)), [];
      }
      var invalid := registry.ValidateConfig(config.providerType, config.config);
      if invalid.Some? {
        return Some(InvalidConfig(invalid.value)), [];
      }
      var updated := repo.Update(config);
      if updated.Some? {
        return Some(RepoFailed(updated.value)), [];
      }
      err, listed := ReloadProviders();
    }

    /** Whether UpdateProvider gets as far as updating the row. */
    ghost predicate Updatable(config: SearchModels.ProviderConfig)
      reads this, repo, registry
    {
      config.providerType in registry.types &&
      Registry.AllSatisfied(registry.types[config.providerType].schema, config.config) &&
      OpUpdate !in repo.failing && config.providerType in repo.rows
    }

    /** DeleteProvider: the providers are reloaded only after the row goes. */
    method DeleteProvider(providerType: string)
      returns (err: Option<ServiceError>, ghost listed: seq<SearchModels.ProviderConfig>)
      requires Valid()
      modifies this, repo
      ensures Valid()
      ensures OpDelete !in repo.failing && providerType in old(repo.rows) ==>
                repo.rows == old(repo.rows) - {providerType} && Reloaded(err, listed, old(providers))
      ensures OpDelete in repo.failing ==> err == Some(RepoFailed(StatementFailed(OpDelete)))
      ensures OpDelete !in repo.failing && providerType !in old(repo.rows) ==>
                err == Some(RepoFailed(NotFound(providerType)))
      ensures OpDelete in repo.failing || providerType !in old(repo.rows) ==>
                repo.rows == old(repo.rows) && providers == old(providers)
    {
      var deleted := repo.Delete(providerType);
      if deleted.Some? {
        return Some(RepoFailed(deleted.value)), [];
      }
      err, listed := ReloadProviders();
    }

    /** ToggleProvider: the providers are reloaded only after the flag is written. */
    method ToggleProvider(providerType: string, enabled: bool)
      returns (err: Option<ServiceError>, ghost listed: seq<SearchModels.ProviderConfig>)
      requires Valid()
      modifies this, repo
      ensures Valid()
      ensures OpUpdateEnabled !in repo.failing && providerType in old(repo.rows) ==>
                repo.rows == old(repo.rows)[providerType := old(repo.rows)[providerType].(enabled := enabled)] &&
                Reloaded(err, listed, old(providers))
      ensures OpUpdateEnabled in repo.failing ==> err == Some(RepoFailed(StatementFailed(OpUpdateEnabled)))
      ensures OpUpdateEnabled !in repo.failing && providerType !in old(repo.rows) ==>
                err == Some(RepoFailed(NotFound(providerType)))
      ensures OpUpdateEnabled in repo.failing || providerType !in old(repo.rows) ==>
                repo.rows == old(repo.rows) && providers == old(providers)
    {
      var toggled := repo.UpdateEnabled(providerType, enabled);
      if toggled.Some? {
        return Some(RepoFailed(toggled.value)), [];
      }
      err, listed := ReloadProviders();
    }
  }

  // ---------------------------------------------------------------------------
  // What a reload leaves loaded
  // ---------------------------------------------------------------------------

  /** After a successful reload, every loaded provider was built from an
      enabled configuration in the repository. */
  lemma LoadedFromEnabled(factories: map<string, Registry.Factory>, listed: seq<SearchModels.ProviderConfig>,
                          rows: map<string, SearchModels.ProviderConfig>, p: SearchModels.Provider)
    requires EnabledListing(listed, rows)
    requires p in Instantiate(factories, listed)
    ensures exists t :: t in rows && rows[t].enabled && Build(factories, rows[t]) == Ok(p)
  {
    InstantiateFromListed(factories, listed);
    var i :| 0 <= i < |listed| && Build(factories, listed[i]) == Ok(p);
    assert rows[listed[i].providerType] == listed[i];
  }
}
