/**
 * Searching a list of providers (internal/search/service.go), the
 * algorithm that backend/internal/search/search_service.go repeats over its
 * loaded providers. A provider's own search is an HTTP exchange and is not
 * modelled: it is an oracle from provider and query to results or an error.
 */
module SearchAggregate {
  import opened Strings
  import SearchModels

  type SearchOracle = (SearchModels.Provider, string) -> Result<seq<SearchModels.SearchResult>, string>

  datatype SearchError =
    | EmptyQuery                     // "search query cannot be empty"
    | ProviderNotFound(name: string) // "provider not found"
    | ProviderFailed(message: string) // the named provider's own error
    | AllFailed                      // "all providers failed to return results"

  /** The index of the first provider with the given name. */
  function FirstNamed(providers: seq<SearchModels.Provider>, name: string): (r: Option<nat>)
    ensures r.Some? ==> r.value < |providers| && SearchModels.Name(providers[r.value]) == name
    ensures r.Some? ==> forall j :: 0 <= j < r.value ==> SearchModels.Name(providers[j]) != name
    ensures r.None? <==> forall j :: 0 <= j < |providers| ==> SearchModels.Name(providers[j]) != name
  {
    if providers == [] then None
    else if SearchModels.Name(providers[0]) == name then Some(0)
    else match FirstNamed(providers[1..], name)
      case None => None
      case Some(k) => Some(k + 1)
  }

  /** The results of the providers that answer, concatenated in provider order. */
  function Gathered(providers: seq<SearchModels.Provider>, query: string, search: SearchOracle): seq<SearchModels.SearchResult>
  {
    if providers == [] then []
    else
      var last := providers[|providers| - 1];
      Gathered(providers[..|providers| - 1], query, search) +
        (if search(last, query).Ok? then search(last, query).value else [])
  }

  /** One named provider's answer. */
  function Answer(r: Result<seq<SearchModels.SearchResult>, string>): Result<seq<SearchModels.SearchResult>, SearchError>
  {
    match r
    case Ok(results) => Ok(results)
    case Err(e) => Err(ProviderFailed(e))
  }

  /** Search: an empty query is refused; a named search asks the first
      provider of that name alone; otherwise every provider is asked, failures
      are skipped, and an empty outcome is an error unless there are no
      providers at all. */
  method SearchProviders(providers: seq<SearchModels.Provider>, query: string, providerName: string, search: SearchOracle)
    returns (r: Result<seq<SearchModels.SearchResult>, SearchError>)
    ensures query == [] ==> r == Err(EmptyQuery)
    ensures query != [] && providerName != [] ==>
              match FirstNamed(providers, providerName)
              case None => r == Err(ProviderNotFound(providerName))
              case Some(i) => r == Answer(search(providers[i], query))
    ensures query != [] && providerName == [] ==>
              (r.Err? <==> Gathered(providers, query, search) == [] && |providers| > 0)
    ensures query != [] && providerName == [] && r.Err? ==> r.error == AllFailed
    ensures query != [] && providerName == [] && r.Ok? ==> r.value == Gathered(providers, query, search)
  {
    if query == [] {
      return Err(EmptyQuery);
    }
    if providerName != [] {
      for i := 0 to |providers|
        invariant forall j :: 0 <= j < i ==> SearchModels.Name(providers[j]) != providerName
      {
        if SearchModels.Name(providers[i]) == providerName {
          return Answer(search(providers[i], query));
        }
      }
      return Err(ProviderNotFound(providerName));
    }
    var allResults := [];
    for i := 0 to |providers|
      invariant allResults == Gathered(providers[..i], query, search)
    {
      assert providers[..i + 1][..i] == providers[..i];
      var results := search(providers[i], query);
      if results.Err? {
        continue;
      }
      allResults := allResults + results.value;
    }
    assert providers[..|providers|] == providers;
    if |allResults| == 0 && |providers| > 0 {
      return Err(AllFailed);
    }
    r := Ok(allResults);
  }

  /** The providers' names, by index. */
  method ListNames(providers: seq<SearchModels.Provider>) returns (names: seq<string>)
    ensures |names| == |providers|
    ensures forall i :: 0 <= i < |providers| ==> names[i] == SearchModels.Name(providers[i])
  {
    names := seq(|providers|, _ => []);
    for i := 0 to |providers|
      invariant |names| == |providers|
      invariant forall j :: 0 <= j < i ==> names[j] == SearchModels.Name(providers[j])
    {
      names := names[i := SearchModels.Name(providers[i])];
    }
  }

  // ---------------------------------------------------------------------------
  // What the aggregate holds
  // ---------------------------------------------------------------------------

  /** A result is gathered exactly when some provider answered with it. */
  lemma {:induction false} GatheredMembers(providers: seq<SearchModels.Provider>, query: string, search: SearchOracle,
                                           x: SearchModels.SearchResult)
    ensures x in Gathered(providers, query, search) <==>
              exists i :: 0 <= i < |providers| && search(providers[i], query).Ok? && x in search(providers[i], query).value
  {
    if providers != [] {
      var init := providers[..|providers| - 1];
      GatheredMembers(init, query, search, x);
      if x in Gathered(init, query, search) {
        var i :| 0 <= i < |init| && search(init[i], query).Ok? && x in search(init[i], query).value;
        assert providers[i] == init[i];
      }
      if exists i :: 0 <= i < |providers| && search(providers[i], query).Ok? && x in search(providers[i], query).value {
        var i :| 0 <= i < |providers| && search(providers[i], query).Ok? && x in search(providers[i], query).value;
        if i < |init| {
          assert init[i] == providers[i];
        }
      }
    }
  }

  /** Providers that fail contribute nothing: the aggregate is that of the
      providers that answer. */
  lemma {:induction false} FailuresSkipped(providers: seq<SearchModels.Provider>, query: string, search: SearchOracle,
                                           p: SearchModels.Provider)
    requires search(p, query).Err?
    ensures Gathered(providers + [p], query, search) == Gathered(providers, query, search)
  {
    assert (providers + [p])[..|providers|] == providers;
  }

  /** Gathering over two lists of providers is gathering over each, in order. */
  lemma {:induction false} GatheredConcat(a: seq<SearchModels.Provider>, b: seq<SearchModels.Provider>, query: string,
                                          search: SearchOracle)
    ensures Gathered(a + b, query, search) == Gathered(a, query, search) + Gathered(b, query, search)
    decreases |b|
  {
    if b == [] {
      assert a + b == a;
    } else {
      var b' := b[..|b| - 1];
      assert (a + b)[..|a + b| - 1] == a + b';
      GatheredConcat(a, b', query, search);
    }
  }

  /** Providers that all answer with nothing make the search fail, although
      none of them failed. */
  lemma {:induction false} EmptyAnswersFail(providers: seq<SearchModels.Provider>, query: string, search: SearchOracle)
    requires forall i :: 0 <= i < |providers| ==> search(providers[i], query) == Ok([])
    ensures Gathered(providers, query, search) == []
  {
    if providers != [] {
      EmptyAnswersFail(providers[..|providers| - 1], query, search);
    }
  }

  // ---------------------------------------------------------------------------
  // The service over a fixed list of providers
  // ---------------------------------------------------------------------------

  class Service {
    const providers: seq<SearchModels.Provider>

    constructor(providers: seq<SearchModels.Provider>)
      ensures this.providers == providers
    {
      this.providers := providers;
    }

    /** Service.Search. */
    method Search(query: string, providerName: string, search: SearchOracle)
      returns (r: Result<seq<SearchModels.SearchResult>, SearchError>)
      ensures query == [] ==> r == Err(EmptyQuery)
      ensures query != [] && providerName != [] ==>
                match FirstNamed(providers, providerName)
                case None => r == Err(ProviderNotFound(providerName))
                case Some(i) => r == Answer(search(providers[i], query))
      ensures query != [] && providerName == [] ==>
                (r.Err? <==> Gathered(providers, query, search) == [] && |providers| > 0)
      ensures query != [] && providerName == [] && r.Err? ==> r.error == AllFailed
      ensures query != [] && providerName == [] && r.Ok? ==> r.value == Gathered(providers, query, search)
    {
      r := SearchProviders(providers, query, providerName, search);
    }

    /** Service.ListProviders. */
    method ListProviders() returns (names: seq<string>)
      ensures |names| == |providers|
      ensures forall i :: 0 <= i < |providers| ==> names[i] == SearchModels.Name(providers[i])
    {
      names := ListNames(providers);
    }
  }
}
