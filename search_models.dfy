/**
 * The values the backend's search side passes around
 * (backend/internal/models/search.go, internal/models/provider.go): search
 * results, provider instances, provider types with their configuration
 * schema, and stored provider configurations.
 */
module SearchModels {
  import Dto

  datatype SeriesInfo = SeriesInfo(id: string, name: string, number: string)

  datatype SearchResult = SearchResult(
    id: string,
    title: string,
    author: string,
    torrentUrl: string,
    magnetLink: string,
    provider: string,
    series: seq<SeriesInfo>,
    category: string,
    fileType: string,
    language: string,
    tags: seq<string>,
    description: string,
    added: string,
    size: string,
    seeders: int,
    leechers: int,
    numFiles: int,
    timesCompleted: int,
    freeleech: bool,
    freeleechVip: bool,
    vip: bool)

  /** A provider's configuration as decoded from JSON. */
  type ConfigMap = map<string, Dto.Json>

  /** A provider instance: the tracker provider with its base URL and secret,
      or any other provider, known here only by its name. */
  datatype Provider = MyAnonamouse(baseUrl: string, secret: string) | OtherProvider(name: string)

  const MamName: string := "MyAnonamouse"

  /** Provider.Name(). */
  function Name(p: Provider): (r: string)
    ensures p.MyAnonamouse? ==> r == MamName
  {
    match p
    case MyAnonamouse(_, _) => MamName
    case OtherProvider(name) => name
  }

  datatype ConfigField = ConfigField(
    name: string,
    displayName: string,
    kind: string,
    required: bool,
    default: string,
    description: string)

  datatype ProviderType = ProviderType(
    typeName: string,
    displayName: string,
    description: string,
    schema: seq<ConfigField>,
    requiresAuth: bool)

  /** A stored provider configuration (timestamps left out). */
  datatype ProviderConfig = ProviderConfig(
    providerType: string,
    displayName: string,
    enabled: bool,
    config: ConfigMap)
}
