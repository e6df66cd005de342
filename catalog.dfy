/**
 * `FlowGPTClient` of src/core/chat_client.py: a read-only client of the
 * prompt catalog. The HTTP round trip is a parameter, `catalog`, from the
 * filter object the client sends to the reply it gets back.
 */
module Catalog {
  import opened Wrappers

  /** A catalog entry: the text fields of a JSON object. Fields holding
      anything else (numbers, nested objects, `null`) are not represented;
      for `id`, `initPrompt` and `systemMessage`, the fields whose values
      the client tests, a `null` behaves like an absent field. */
  type Prompt = map<string, string>

  /** Field `key` of `p`, like `p.get(key)`. */
  function Field(p: Prompt, key: string): Option<string> {
    if key in p then Some(p[key]) else None
  }

  /** Field `key` of `p`, or `default`, like `p.get(key, default)`. */
  function FieldOr(p: Prompt, key: string, default: string): string {
    Field(p, key).GetOr(default)
  }

  /** The filter object `{"0": {"json": {...}, "meta": {"values": {...}}}}`
      that is JSON-encoded and URL-quoted into the `input` parameter of
      `prompt.getPrompts?batch=1`. A `None` field is JSON `null`. */
  datatype SearchRequest = SearchRequest(
    tag: Option<string>,
    sort: Option<string>,
    q: Option<string>,
    language: string,
    metaValues: map<string, seq<string>>)

  const UndefinedMarker: seq<string> := ["undefined"]

  /** The meta markers flag exactly the filter fields that are sent as null. */
  predicate MarksNulls(r: SearchRequest) {
    && r.metaValues.Keys == {"tag", "sort", "q"}
    && (r.metaValues["tag"] == UndefinedMarker <==> r.tag.None?)
    && (r.metaValues["sort"] == UndefinedMarker <==> r.sort.None?)
    && (r.metaValues["q"] == UndefinedMarker <==> r.q.None?)
    && (forall k | k in r.metaValues :: r.metaValues[k] == UndefinedMarker || r.metaValues[k] == [])
  }

  function Marker(isNull: bool): seq<string> {
    if isNull then UndefinedMarker else []
  }

  /** The payload `search_prompts` builds: an empty query is sent as null,
      the other fields as given, and every null field is marked "undefined". */
  function SearchPayload(query: string, tag: Option<string>, sort: Option<string>, language: string): (r: SearchRequest)
    ensures r.q == if query == "" then None else Some(query)
    ensures r.tag == tag && r.sort == sort && r.language == language
    ensures MarksNulls(r)
  {
    var q := if query != "" then Some(query) else None;
    SearchRequest(tag, sort, q, language,
      map["tag" := Marker(tag.None?), "sort" := Marker(sort.None?), "q" := Marker(query == "")])
  }

  /** What the catalog's reply holds, down to `result[0]["result"]["data"]["json"]`.
      `Unavailable` stands for everything that raises inside the `try`: an
      error status, a transport failure, a body that is not JSON, an empty
      batch, or a `result` or `data` level that is not an object (`null`
      included, since the next `.get` then raises). A missing key is `None`
      and falls back to the `.get` default. A `json` level that is present
      but `null` is not represented. */
  datatype CatalogReply =
    | Unavailable
    | Batch(result: Option<ResultPart>)

  datatype ResultPart = ResultPart(data: Option<DataPart>)

  datatype DataPart = DataPart(json: Option<seq<Prompt>>)

  /** The result list carried by a reply, when every level is present. */
  predicate Carries(reply: CatalogReply, prompts: seq<Prompt>) {
    reply == Batch(Some(ResultPart(Some(DataPart(Some(prompts))))))
  }

  /** `search_prompts`: never fails. It returns the catalog's list, in the
      catalog's order, when the reply carries one, and `[]` otherwise. */
  function SearchPrompts(query: string, tag: Option<string>, sort: Option<string>, language: string,
                         catalog: SearchRequest -> CatalogReply): (r: seq<Prompt>)
    ensures var reply := catalog(SearchPayload(query, tag, sort, language));
            (forall ps :: Carries(reply, ps) ==> r == ps)
            && (r != [] ==> Carries(reply, r))
  {
    match catalog(SearchPayload(query, tag, sort, language))
    case Batch(Some(ResultPart(Some(DataPart(Some(prompts)))))) => prompts
    case _ => []
  }

  /** `search_flowgpt_prompts`: a search on the query alone, in English. */
  function SearchByQuery(query: string, catalog: SearchRequest -> CatalogReply): seq<Prompt> {
    SearchPrompts(query, None, None, "en", catalog)
  }

  predicate HasId(p: Prompt, id: string) {
    "id" in p && p["id"] == id
  }

  /** The position of the first entry whose id is exactly `id`, or `|ps|`. */
  function FirstWithId(ps: seq<Prompt>, id: string): (k: nat)
    ensures k <= |ps|
    ensures k < |ps| ==> HasId(ps[k], id)
    ensures forall j | 0 <= j < k :: !HasId(ps[j], id)
  {
    if ps == [] then 0
    else if HasId(ps[0], id) then 0
    else 1 + FirstWithId(ps[1..], id)
  }

  /** The first entry of `ps` whose id equals `id` exactly, if any. */
  function FindById(ps: seq<Prompt>, id: string): (r: Option<Prompt>)
    ensures r.None? <==> forall k | 0 <= k < |ps| :: !HasId(ps[k], id)
    ensures r.Some? ==> HasId(r.value, id) && r.value in ps
    ensures r.Some? ==> exists k | 0 <= k < |ps| :: ps[k] == r.value && forall j | 0 <= j < k :: !HasId(ps[j], id)
  {
    var k := FirstWithId(ps, id);
    if k < |ps| then Some(ps[k]) else None
  }

  /** `get_prompt_by_id`: searches with the id as the query text and scans
      the results for an exact id match. */
  method GetPromptById(promptId: string, catalog: SearchRequest -> CatalogReply) returns (found: Option<Prompt>)
    ensures found == FindById(SearchByQuery(promptId, catalog), promptId)
  {
    var prompts := SearchByQuery(promptId, catalog);
    var i := 0;
    while i < |prompts|
      invariant 0 <= i <= |prompts|
      invariant forall j | 0 <= j < i :: !HasId(prompts[j], promptId)
    {
      if HasId(prompts[i], promptId) {
        return Some(prompts[i]);
      }
      i := i + 1;
    }
    return None;
  }

  /** `prompt.get("initPrompt") or prompt.get("systemMessage")`: the initial
      prompt when it is non-empty, else the system message as it is. */
  function SystemText(p: Prompt): (r: Option<string>)
    ensures Field(p, "initPrompt").Some? && p["initPrompt"] != "" ==> r == Some(p["initPrompt"])
    ensures !(Field(p, "initPrompt").Some? && p["initPrompt"] != "") ==> r == Field(p, "systemMessage")
  {
    if "initPrompt" in p && p["initPrompt"] != "" then Some(p["initPrompt"])
    else Field(p, "systemMessage")
  }

  /** `load_flowgpt_prompt`: the system text of the entry with that id. A
      found entry carries an `id` key, so the `if prompt:` truth test never
      rejects it. */
  function LoadedPrompt(promptId: string, catalog: SearchRequest -> CatalogReply): Option<string> {
    match FindById(SearchByQuery(promptId, catalog), promptId)
    case None => None
    case Some(p) => SystemText(p)
  }
}
