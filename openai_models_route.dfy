/** `GET /api/models/openai`: the chat models the OpenAI API lists (those
    whose id contains `gpt`), each id behind the `openai/` prefix the
    settings store uses. */
module OpenaiModelsRoute {
  import opened Common
  import opened Settings
  import opened ModelRoutes

  const ModelsUrl: string := "https://api.openai.com/v1/models"

  const Texts: Labels := Labels(
    "openai",
    "No OpenAI API key available (not in .env or provided by client)",
    "Invalid OpenAI API key",
    "OpenAI API error: ",
    "Failed to fetch OpenAI models")

  /** `model.id.includes("gpt")`, `None` when it throws: the model is null
      or undefined, or its id has no `includes` (only strings and arrays
      do). */
  function IsGpt(model: Json): Option<bool>
  {
    if IsNullish(model) then None
    else
      match Get(model, "id")
      case Str(s) => Some(Contains(s, "gpt"))
      case Arr(ids) => Some(Str("gpt") in ids)
      case _ => None
  }

  /** `data.data.filter(...)`: the elements that pass, in order; `None` when
      the test throws for an element. */
  function GptModels(items: seq<Json>): Option<seq<Json>>
    decreases |items|
  {
    if items == [] then Some([])
    else
      var init := GptModels(items[..|items| - 1]);
      var last := items[|items| - 1];
      var test := IsGpt(last);
      if init.None? || test.None? then None
      else Some(init.value + (if test.value then [last] else []))
  }

  /** One kept model: its id behind the prefix, and its id as the name. */
  function ToListed(model: Json): (r: ListedModel)
    ensures StartsWith(r.id, "openai/") && r.id[7..] == JsString(Get(model, "id"))
    ensures r.name == Get(model, "id") && r.provider == OpenAI
  {
    ListedModel("openai/" + JsString(Get(model, "id")), Get(model, "id"), OpenAI)
  }

  /** The whole transform of the parsed body: `None` when it throws. */
  function Transform(body: Json): Option<seq<ListedModel>>
  {
    if IsNullish(body) then None
    else
      var list := Get(body, "data");
      if !list.Arr? then None
      else
        var kept := GptModels(list.items);
        if kept.None? then None
        else Some(seq(|kept.value|, i requires 0 <= i < |kept.value| => ToListed(kept.value[i])))
  }

  // ---------------------------------------------------------------------------
  // Properties
  // ---------------------------------------------------------------------------

  /** The filter fails exactly when the test throws for some element. */
  lemma {:induction false} GptModelsDefined(items: seq<Json>)
    ensures GptModels(items).Some? <==> forall i :: 0 <= i < |items| ==> IsGpt(items[i]).Some?
    decreases |items|
  {
    if items != [] {
      var init := items[..|items| - 1];
      GptModelsDefined(init);
      assert forall i :: 0 <= i < |init| ==> init[i] == items[i];
    }
  }

  /** Filtering a concatenation filters each part and keeps them in order;
      with the one-element case below this fixes the result entirely. */
  lemma {:induction false} GptModelsAppend(a: seq<Json>, b: seq<Json>)
    ensures GptModels(a + b) ==
      if GptModels(a).Some? && GptModels(b).Some? then Some(GptModels(a).value + GptModels(b).value) else None
    decreases |b|
  {
    if b == [] {
      assert a + b == a;
      assert GptModels(b) == Some([]);
      if GptModels(a).Some? {
        assert GptModels(a).value + [] == GptModels(a).value;
      }
    } else {
      var b0 := b[..|b| - 1];
      assert (a + b)[..|a + b| - 1] == a + b0;
      assert (a + b)[|a + b| - 1] == b[|b| - 1];
      GptModelsAppend(a, b0);
      if GptModels(a).Some? && GptModels(b0).Some? && IsGpt(b[|b| - 1]).Some? {
        var last := b[|b| - 1];
        assert GptModels(a).value + GptModels(b0).value + (if IsGpt(last).value then [last] else [])
          == GptModels(a).value + (GptModels(b0).value + (if IsGpt(last).value then [last] else []));
      }
    }
  }

  /** One element is kept exactly when its id includes `gpt`. */
  lemma GptModelsSingle(x: Json)
    ensures GptModels([x]) == if IsGpt(x).None? then None else if IsGpt(x).value then Some([x]) else Some([])
  {
    var single := [x];
    assert single[..|single| - 1] == [];
    assert single[|single| - 1] == x;
    assert GptModels([]) == Some([]);
    assert [] + [x] == [x];
    assert GptModels([]).value + [] == [];
  }

  /** The kept elements are exactly the elements whose id includes `gpt`. */
  lemma {:induction false} GptModelsMembers(items: seq<Json>, x: Json)
    requires GptModels(items).Some?
    ensures x in GptModels(items).value <==> x in items && IsGpt(x) == Some(true)
    decreases |items|
  {
    if items != [] {
      var init := items[..|items| - 1];
      GptModelsMembers(init, x);
      assert items == init + [items[|items| - 1]];
    }
  }

  /** Every model the route lists comes from an element of the upstream
      list whose id includes `gpt`, carries the prefix, and has an id that
      includes `gpt`: the string itself, or an array holding `"gpt"` whose
      `String(...)` join then holds it too. */
  lemma TransformListsGptModels(body: Json, i: nat)
    requires Transform(body).Some? && i < |Transform(body).value|
    ensures Transform(body).value[i].provider == OpenAI
    ensures StartsWith(Transform(body).value[i].id, "openai/")
    ensures exists j ::
      (0 <= j < |Get(body, "data").items| && IsGpt(Get(body, "data").items[j]) == Some(true)
       && Transform(body).value[i] == ToListed(Get(body, "data").items[j]))
    ensures Transform(body).value[i].name.Str? ==> Contains(Transform(body).value[i].id, "gpt")
    ensures Contains(Transform(body).value[i].id, "gpt")
  {
    var items := Get(body, "data").items;
    var kept := GptModels(items).value;
    var m := kept[i];
    GptModelsMembers(items, m);
    var r := Transform(body).value[i];
    assert r == ToListed(m);
    var j :| 0 <= j < |items| && items[j] == m;
    if r.name.Str? {
      assert Contains(r.name.s, "gpt");
      ContainsAfterPrefix("openai/", r.name.s, "gpt");
      assert r.id == "openai/" + r.name.s;
    } else {
      var ids := r.name;
      assert ids.Arr? && Str("gpt") in ids.items;
      var k :| 0 <= k < |ids.items| && ids.items[k] == Str("gpt");
      JoinHoldsElement(ids, 0, k);
      assert JsString(ids) == JoinElements(ids, 0);
      ContainsAfterPrefix("openai/", JsString(ids), "gpt");
      assert r.id == "openai/" + JsString(ids);
    }
  }

  /** `GET`, given the client's `apiKey` parameter, the environment's key,
      the clock at the cache lookup (`now`) and after the fetch (`doneAt`),
      and what the upstream answers for a URL and a key. */
  method HandleGet(cache: ModelCache, clientApiKey: Option<string>, envKey: Option<string>, now: int,
                   fetch: (string, string) -> Upstream, doneAt: int) returns (resp: RouteResponse)
    requires cache.Valid()
    modifies cache
    ensures cache.Valid()
    ensures (resp, cache.entries) == Serve(old(cache.entries), Texts, ChosenKey(clientApiKey, envKey), now,
      k => fetch(ModelsUrl, k), Transform, doneAt)
  {
    var apiKey := if clientApiKey.Some? && clientApiKey.value != "" then clientApiKey else envKey;
    if apiKey.None? || apiKey.value == "" {
      return RouteResponse(400, [], Some("No OpenAI API key available (not in .env or provided by client)"));
    }
    var cached := cache.GetCachedModels("openai", now);
    if cached.Some? {
      return RouteResponse(200, cached.value, None);
    }
    var response := fetch(ModelsUrl, apiKey.value);
    match response
    case Unreachable =>
      return RouteResponse(500, [], Some("Failed to fetch OpenAI models"));
    case NotOk(status, errorText) =>
      if errorText.None? {
        return RouteResponse(500, [], Some("Failed to fetch OpenAI models"));
      }
      if status == 401 {
        return RouteResponse(401, [], Some("Invalid OpenAI API key"));
      }
      return RouteResponse(status, [], Some("OpenAI API error: " + IntToString(status) + " " + errorText.value));
    case Ok(body) =>
      if body.None? {
        return RouteResponse(500, [], Some("Failed to fetch OpenAI models"));
      }
      var chatModels := Transform(body.value);
      if chatModels.None? {
        return RouteResponse(500, [], Some("Failed to fetch OpenAI models"));
      }
      cache.SetCachedModels("openai", chatModels.value, doneAt);
      return RouteResponse(200, chatModels.value, None);
  }
}
