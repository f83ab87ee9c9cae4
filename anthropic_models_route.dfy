/** `GET /api/models/anthropic`: the models the Anthropic API lists, each
    id behind the `anthropic/` prefix the settings store uses. */
module AnthropicModelsRoute {
  import opened Common
  import opened Settings
  import opened ModelRoutes

  const ApiOrigin: string := "https://api.anthropic.com"

  /** The base URL the route starts from; it already ends in the API
      version. */
  const BaseUrl: string := "https://api.anthropic.com/v1"

  /** The models endpoint of the Anthropic API, under its origin. */
  const ModelsPath: string := "/v1/models?limit=100"

  const Texts: Labels := Labels(
    "anthropic",
    "No Anthropic API key available (not in .env or provided by client)",
    "Invalid Anthropic API key",
    "Anthropic API error: ",
    "Failed to fetch Anthropic models")

  /** The URL as the route builds it: the base URL followed by a path that
      starts with the API version once more. */
  function ModelsUrlAsWritten(baseUrl: string): string
  {
    baseUrl + "/v1/models?limit=100"
  }

  /** The models endpoint under a base URL that ends in the API version. */
  function ModelsUrl(baseUrl: string): string
  {
    baseUrl + "/models?limit=100"
  }

  /** As written, the version appears twice and the request goes to
      `/v1/v1/models`, which is not the models endpoint. */
  lemma VersionDoubledAsWritten()
    ensures ModelsUrlAsWritten(BaseUrl) == ApiOrigin + "/v1" + ModelsPath
    ensures ModelsUrlAsWritten(BaseUrl) != ApiOrigin + ModelsPath
  {
    assert |ModelsUrlAsWritten(BaseUrl)| == |ApiOrigin + ModelsPath| + 3;
  }

  /** Under any base URL of the form origin + `/v1`, the corrected URL is
      that origin's models endpoint; in particular under the route's own. */
  lemma ModelsUrlIsEndpoint(origin: string)
    ensures ModelsUrl(origin + "/v1") == origin + ModelsPath
    ensures ModelsUrl(BaseUrl) == ApiOrigin + ModelsPath
  {
    assert BaseUrl == ApiOrigin + "/v1";
  }

  /** One model of the upstream list. */
  function ToListed(model: Json): (r: ListedModel)
    ensures StartsWith(r.id, "anthropic/") && r.id[10..] == JsString(Get(model, "id"))
    ensures r.provider == Anthropic
    ensures Truthy(Get(model, "display_name")) ==> r.name == Get(model, "display_name")
    ensures !Truthy(Get(model, "display_name")) ==> r.name == Get(model, "id")
  {
    ListedModel("anthropic/" + JsString(Get(model, "id")), Or(Get(model, "display_name"), Get(model, "id")), Anthropic)
  }

  /** `data.data.map(...)`: `None` when an element is null or undefined, as
      reading its `id` throws. */
  function ListModels(items: seq<Json>): (r: Option<seq<ListedModel>>)
    ensures r.Some? <==> forall i :: 0 <= i < |items| ==> !IsNullish(items[i])
    ensures r.Some? ==> |r.value| == |items| && forall i :: 0 <= i < |items| ==> r.value[i] == ToListed(items[i])
    decreases |items|
  {
    if items == [] then Some([])
    else if IsNullish(items[0]) then None
    else
      var rest := ListModels(items[1..]);
      if rest.None? then None else Some([ToListed(items[0])] + rest.value)
  }

  /** The whole transform of the parsed body: `None` when it throws. */
  function Transform(body: Json): Option<seq<ListedModel>>
  {
    if IsNullish(body) then None
    else
      var list := Get(body, "data");
      if !list.Arr? then None else ListModels(list.items)
  }

  /** A body whose `data` is an array of models gives one listed model per
      element, in the same order; anything else makes the route fail. */
  lemma TransformKeepsOrder(body: Json)
    ensures Transform(body).Some? <==>
      (!IsNullish(body) && Get(body, "data").Arr?
       && forall i :: 0 <= i < |Get(body, "data").items| ==> !IsNullish(Get(body, "data").items[i]))
    ensures Transform(body).Some? ==>
      (|Transform(body).value| == |Get(body, "data").items|
       && forall i :: 0 <= i < |Get(body, "data").items| ==>
            Transform(body).value[i] == ToListed(Get(body, "data").items[i]))
  {
  }

  /** `GET`, given the client's `apiKey` parameter, the environment's key,
      the clock at the cache lookup (`now`) and after the fetch (`doneAt`),
      and what the upstream answers for a URL and a key. The request goes to
      the URL as the route builds it (`ModelsUrlAsWritten`). */
  method HandleGet(cache: ModelCache, clientApiKey: Option<string>, envKey: Option<string>, now: int,
                   fetch: (string, string) -> Upstream, doneAt: int) returns (resp: RouteResponse)
    requires cache.Valid()
    modifies cache
    ensures cache.Valid()
    ensures (resp, cache.entries) == Serve(old(cache.entries), Texts, ChosenKey(clientApiKey, envKey), now,
      k => fetch(ModelsUrlAsWritten(BaseUrl), k), Transform, doneAt)
  {
    var apiKey := if clientApiKey.Some? && clientApiKey.value != "" then clientApiKey else envKey;
    if apiKey.None? || apiKey.value == "" {
      return RouteResponse(400, [], Some("No Anthropic API key available (not in .env or provided by client)"));
    }
    var cached := cache.GetCachedModels("anthropic", now);
    if cached.Some? {
      return RouteResponse(200, cached.value, None);
    }
    var response := fetch(ModelsUrlAsWritten(BaseUrl), apiKey.value);
    match response
    case Unreachable =>
      return RouteResponse(500, [], Some("Failed to fetch Anthropic models"));
    case NotOk(status, errorText) =>
      if errorText.None? {
        return RouteResponse(500, [], Some("Failed to fetch Anthropic models"));
      }
      if status == 401 {
        return RouteResponse(401, [], Some("Invalid Anthropic API key"));
      }
      return RouteResponse(status, [], Some("Anthropic API error: " + IntToString(status) + " " + errorText.value));
    case Ok(body) =>
      if body.None? {
        return RouteResponse(500, [], Some("Failed to fetch Anthropic models"));
      }
      var models := Transform(body.value);
      if models.None? {
        return RouteResponse(500, [], Some("Failed to fetch Anthropic models"));
      }
      cache.SetCachedModels("anthropic", models.value, doneAt);
      return RouteResponse(200, models.value, None);
  }
}
