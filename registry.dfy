/**
 * The provider registry (internal/search/registry.go): provider types by
 * name, each with a factory that builds a provider from its JSON settings
 * and a description with a configuration schema. The registry starts with
 * the tracker provider registered.
 */
module Registry {
  import opened Strings
  import Dto
  import SearchModels

  type Factory = SearchModels.ConfigMap -> Result<SearchModels.Provider, string>

  datatype RegistryError =
    | UnknownType(providerType: string)
    | MissingField(name: string)       // "missing required field"
    | EmptyField(name: string)         // "required field cannot be empty"
    | FactoryFailed(message: string)   // the factory's own error, returned as is

  // ---------------------------------------------------------------------------
  // The built-in tracker provider
  // ---------------------------------------------------------------------------

  const MamTypeName: string := "myanonamouse"
  const MamDefaultUrl: string := "https://www.myanonamouse.net"

  /** `config[name].(string)` with the comma-ok result dropped: the string
      held under the name, or "" when it is absent or not a string. */
  function StringSetting(config: SearchModels.ConfigMap, name: string): (s: string)
    ensures s != [] ==> name in config && config[name] == Dto.JString(s)
  {
    if name in config && config[name].JString? then config[name].s else []
  }

  /** myAnonamouseFactory: a secret is required; an empty base URL falls back
      to the tracker's public address. */
  function MamFactory(config: SearchModels.ConfigMap): (r: Result<SearchModels.Provider, string>)
    ensures r.Ok? <==> SecretSet(config)
    ensures r.Ok? ==> r.value.MyAnonamouse? && r.value.secret == StringSetting(config, "secret")
    ensures r.Ok? && StringSetting(config, "baseUrl") == [] ==> r.value.baseUrl == MamDefaultUrl
    ensures r.Ok? && StringSetting(config, "baseUrl") != [] ==> r.value.baseUrl == StringSetting(config, "baseUrl")
  {
    var baseUrl := StringSetting(config, "baseUrl");
    var secret := StringSetting(config, "secret");
    var baseUrl := if baseUrl == [] then MamDefaultUrl else baseUrl;
    if secret == [] then Err("secret is required")
    else Ok(SearchModels.MyAnonamouse(baseUrl, secret))
  }

  /** The secret is a non-empty string. */
  predicate SecretSet(config: SearchModels.ConfigMap)
  {
    "secret" in config && config["secret"].JString? && config["secret"].s != []
  }

  /** myAnonamouseType. */
  const MamProviderType: SearchModels.ProviderType :=
    SearchModels.ProviderType(
      MamTypeName, "MyAnonamouse", "Private audiobook tracker with extensive collection",
      [SearchModels.ConfigField("baseUrl", "Base URL", "url", false, MamDefaultUrl, "MyAnonamouse base URL"),
       SearchModels.ConfigField("secret", "API Secret", "secret", true, [], "Your MyAnonamouse API secret (mam_id)")],
      true)

  /** In the built-in schema only the secret is required, and the base URL's
      default is the factory's own fallback. */
  lemma MamSchemaRequiresOnlySecret()
    ensures forall i :: 0 <= i < |MamProviderType.schema| ==>
              (MamProviderType.schema[i].required <==> MamProviderType.schema[i].name == "secret")
    ensures exists i :: 0 <= i < |MamProviderType.schema| && MamProviderType.schema[i].name == "baseUrl" &&
              MamProviderType.schema[i].default == MamDefaultUrl
  {
    var schema := MamProviderType.schema;
    assert schema[0].name == "baseUrl" && schema[1].name == "secret";
    assert "baseUrl" != "secret" by { assert "baseUrl"[0] != "secret"[0]; }
  }

  // ---------------------------------------------------------------------------
  // Schema validation
  // ---------------------------------------------------------------------------

  /** A field is satisfied when it is optional, or present and not the empty
      string; values of other JSON kinds pass. */
  predicate Satisfied(field: SearchModels.ConfigField, config: SearchModels.ConfigMap)
  {
    !field.required || (field.name in config && config[field.name] != Dto.JString([]))
  }

  /** Every field of a schema is satisfied. */
  predicate AllSatisfied(schema: seq<SearchModels.ConfigField>, config: SearchModels.ConfigMap)
  {
    forall i :: 0 <= i < |schema| ==> Satisfied(schema[i], config)
  }

  /** Why a field fails, if it does. */
  function FieldError(field: SearchModels.ConfigField, config: SearchModels.ConfigMap): (r: Option<RegistryError>)
    ensures r.None? <==> Satisfied(field, config)
  {
    if !field.required then None
    else if field.name !in config then Some(MissingField(field.name))
    else if config[field.name] == Dto.JString([]) then Some(EmptyField(field.name))
    else None
  }

  /** A factory's outcome as the registry returns it. */
  function Built(r: Result<SearchModels.Provider, string>): Result<SearchModels.Provider, RegistryError>
  {
    match r
    case Ok(p) => Ok(p)
    case Err(e) => Err(FactoryFailed(e))
  }

  class Registry {
    var factories: map<string, Factory>
    var types: map<string, SearchModels.ProviderType>

    /** NewRegistry: the tracker provider is built in. */
    constructor()
      ensures factories == map[MamTypeName := MamFactory]
      ensures types == map[MamTypeName := MamProviderType]
    {
      var builtIn: map<string, Factory> := map[MamTypeName := MamFactory];
      factories := builtIn;
      types := map[MamTypeName := MamProviderType];
    }

    /** Register: a later registration of the same name replaces the earlier one. */
    method Register(providerType: string, factory: Factory, typeInfo: SearchModels.ProviderType)
      modifies this
      ensures factories == old(factories)[providerType := factory]
      ensures types == old(types)[providerType := typeInfo]
    {
      factories := factories[providerType := factory];
      types := types[providerType := typeInfo];
    }

    /** Create: the registered factory applied to the settings. */
    method Create(providerType: string, config: SearchModels.ConfigMap)
      returns (r: Result<SearchModels.Provider, RegistryError>)
      ensures providerType !in factories ==> r == Err(UnknownType(providerType))
      ensures providerType in factories ==> r == Built(factories[providerType](config))
    {
      if providerType !in factories {
        return Err(UnknownType(providerType));
      }
      var factory := factories[providerType];
      match factory(config)
      case Ok(p) => r := Ok(p);
      case Err(e) => r := Err(FactoryFailed(e));
    }

    /** GetType. */
    method GetType(providerType: string) returns (r: Result<SearchModels.ProviderType, RegistryError>)
      ensures providerType in types <==> r.Ok?
      ensures r.Ok? ==> r.value == types[providerType]
      ensures r.Err? ==> r.error == UnknownType(providerType)
    {
      if providerType !in types {
        return Err(UnknownType(providerType));
      }
      r := Ok(types[providerType]);
    }

    /** GetTypes: one entry per registered type, in the map's unspecified
        iteration order, which `order` reports. */
    method GetTypes() returns (result: seq<SearchModels.ProviderType>, ghost order: seq<string>)
      ensures Distinct(order) && (set k | k in order) == types.Keys
      ensures |result| == |order| == |types|
      ensures forall i :: 0 <= i < |order| ==> result[i] == types[order[i]]
    {
      result, order := [], [];
      var remaining := types.Keys;
      while remaining != {}
        invariant remaining <= types.Keys
        invariant Distinct(order) && (set k | k in order) == types.Keys - remaining
        invariant Listed(types, order, result)
        decreases |remaining|
      {
        var t :| t in remaining;
        assert t !in (set k | k in order);
        DistinctStep(order, t);
        ListedStep(types, order, result, t);
        result := result + [types[t]];
        order := order + [t];
        remaining := remaining - {t};
      }
      DistinctCard(order);
      assert |types| == |types.Keys|;
    }

    /** ValidateConfig: the first required field of the schema that is
        missing or empty, in schema order. */
    method ValidateConfig(providerType: string, config: SearchModels.ConfigMap) returns (r: Option<RegistryError>)
      ensures providerType !in types ==> r == Some(UnknownType(providerType))
      ensures providerType in types ==> (r.None? <==> AllSatisfied(types[providerType].schema, config))
      ensures providerType in types && r.Some? ==>
                exists i :: 0 <= i < |types[providerType].schema| &&
                  r == FieldError(types[providerType].schema[i], config) &&
                  forall j :: 0 <= j < i ==> Satisfied(types[providerType].schema[j], config)
    {
      var typeInfo := GetType(providerType);
      if typeInfo.Err? {
        return Some(typeInfo.error);
      }
      var schema := typeInfo.value.schema;
      for i := 0 to |schema|
        invariant forall j :: 0 <= j < i ==> Satisfied(schema[j], config)
      {
        var field := schema[i];
        if field.required {
          if field.name !in config {
            return Some(MissingField(field.name));
          }
          if config[field.name] == Dto.JString([]) {
            return Some(EmptyField(field.name));
          }
        }
      }
      r := None;
    }
  }

  predicate Distinct<T(==)>(s: seq<T>)
  {
    forall i, j :: 0 <= i < j < |s| ==> s[i] != s[j]
  }

  /** The types listed so far, each under its key. */
  predicate Listed(types: map<string, SearchModels.ProviderType>, order: seq<string>, result: seq<SearchModels.ProviderType>)
  {
    |result| == |order| && forall i :: 0 <= i < |order| ==> order[i] in types && result[i] == types[order[i]]
  }

  lemma ListedStep(types: map<string, SearchModels.ProviderType>, order: seq<string>, result: seq<SearchModels.ProviderType>, t: string)
    requires Listed(types, order, result) && t in types
    ensures Listed(types, order + [t], result + [types[t]])
  {
  }

  /** Appending an element not yet present keeps a sequence free of repeats
      and adds the element to its set. */
  lemma DistinctStep<T>(s: seq<T>, x: T)
    requires Distinct(s) && x !in s
    ensures Distinct(s + [x]) && (set k | k in s + [x]) == (set k | k in s) + {x}
  {
  }

  /** A sequence without repeats has as many elements as its set. */
  lemma {:induction false} DistinctCard<T>(s: seq<T>)
    requires Distinct(s)
    ensures |set x | x in s| == |s|
  {
    if s != [] {
      var init := s[..|s| - 1];
      DistinctCard(init);
      assert (set x | x in s) == (set x | x in init) + {s[|s| - 1]};
      forall i | 0 <= i < |init| ensures init[i] != s[|s| - 1] {
        assert init[i] == s[i];
      }
    }
  }

  /** After Register, the name is known: its type is the one registered and
      creating it runs the factory registered. */
  method RegisterThenUse(registry: Registry, providerType: string, factory: Factory,
                         typeInfo: SearchModels.ProviderType, config: SearchModels.ConfigMap)
    returns (created: Result<SearchModels.Provider, RegistryError>, info: Result<SearchModels.ProviderType, RegistryError>)
    modifies registry
    ensures info == Ok(typeInfo)
    ensures factory(config).Ok? ==> created == Ok(factory(config).value)
    ensures factory(config).Err? ==> created == Err(FactoryFailed(factory(config).error))
  {
    registry.Register(providerType, factory, typeInfo);
    created := registry.Create(providerType, config);
    info := registry.GetType(providerType);
  }

  /** The built-in registry answers only for the tracker type: the tracker
      is created from settings holding a secret, and settings without one
      fail validation. */
  method BuiltIn(config: SearchModels.ConfigMap, other: string) returns (created: Result<SearchModels.Provider, RegistryError>,
                                                                         invalid: Option<RegistryError>,
                                                                         unknown: Option<RegistryError>)
    requires other != MamTypeName
    ensures SecretSet(config) ==> created.Ok? && created.value.MyAnonamouse?
    ensures "secret" !in config ==> invalid == Some(MissingField("secret"))
    ensures unknown == Some(UnknownType(other))
  {
    var registry := new Registry();
    created := registry.Create(MamTypeName, config);
    MamSchemaRequiresOnlySecret();
    invalid := registry.ValidateConfig(MamTypeName, config);
    if "secret" !in config {
      var schema := MamProviderType.schema;
      assert !Satisfied(schema[1], config);
      assert Satisfied(schema[0], config);
      assert FieldError(schema[1], config) == Some(MissingField("secret"));
    }
    unknown := registry.ValidateConfig(other, config);
  }
}
