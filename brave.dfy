/**
 * The Brave web-search engine's classification of a response: status 422
 * means "no results" and yields an empty list, any other status but 200 is
 * an error naming the query and the status, and a 200 response yields the
 * `url` of every entry of `web.results`, in order. The HTTP client, its
 * lifetime and the API key lookup are not part of this model; the endpoint
 * is a function from the request parameters to a response.
 */
module Brave {

  import opened Types
  import opened Engine
  import opened Decimal

  /** A decoded JSON document. */
  datatype Json =
    | JNull
    | JBool(b: bool)
    | JNumber(n: real)
    | JString(s: string)
    | JArray(items: seq<Json>)
    | JObject(fields: map<string, Json>)

  /** The endpoint's reply: its status code and its body, `None` when the body is not valid JSON. */
  datatype Response = Response(statusCode: int, body: Option<Json>)

  /** The search endpoint, called with the query and the `count` parameter. */
  type Server = (string, int) -> Response

  const NoResultsStatus: int := 422
  const OkStatus: int := 200

  /** Why a 200 response yields no URL list (each is a Python exception in the engine or the executor). */
  datatype BodyFault =
    | InvalidJson   // decoding the body raises
    | NoGetMethod   // `.get` is called on a value that is not a JSON object
    | NotIterable   // "results" is a number, a boolean or null
    | UrlNotText    // a url value is not a string, so the result record rejects it

  datatype Parsed<+T> = Parsed(value: T) | Faulted(fault: BodyFault)

  const HttpErrorPrefix: string := "Brave search failed for '"
  const HttpErrorInfix: string := "': HTTP "

  /** The message of the error raised for an unexpected status: the query sits after the prefix, the status can be read back after the infix. */
  function HttpErrorMessage(query: string, status: int): (m: string)
    ensures |m| > |HttpErrorPrefix| + |query| + |HttpErrorInfix|
    ensures m[..|HttpErrorPrefix|] == HttpErrorPrefix
    ensures m[|HttpErrorPrefix|..|HttpErrorPrefix| + |query|] == query
    ensures m[|HttpErrorPrefix| + |query|..|HttpErrorPrefix| + |query| + |HttpErrorInfix|] == HttpErrorInfix
    ensures ParseInt(m[|HttpErrorPrefix| + |query| + |HttpErrorInfix|..]) == Some(status)
  {
    ParseIntText(status);
    var head := HttpErrorPrefix + query;
    var m := head + HttpErrorInfix + IntText(status);
    assert m[..|head|] == head && head[..|HttpErrorPrefix|] == HttpErrorPrefix && head[|HttpErrorPrefix|..] == query;
    assert m[|head|..|head| + |HttpErrorInfix|] == HttpErrorInfix;
    assert m[|head| + |HttpErrorInfix|..] == IntText(status);
    m
  }

  function Describe(fault: BodyFault): string
  {
    match fault
    case InvalidJson => "response body is not valid JSON"
    case NoGetMethod => "object has no attribute 'get'"
    case NotIterable => "object is not iterable"
    case UrlNotText => "result_urls: Input should be a valid string"
  }

  /** `o.get(key, default)`. */
  function Lookup(o: map<string, Json>, key: string, default: Json): Json
  {
    if key in o then o[key] else default
  }

  /**
   * The entries that `for result in data.get("web", {}).get("results", [])`
   * visits. Iterating an object visits its keys and a string its characters;
   * both are strings, on which the later `.get` fails, so only empty ones pass.
   */
  function ResultEntries(data: Json): Parsed<seq<Json>>
  {
    match data
    case JObject(top) =>
      (match Lookup(top, "web", JObject(map[]))
       case JObject(web) =>
         (match Lookup(web, "results", JArray([]))
          case JArray(items) => Parsed(items)
          case JObject(f) => if f == map[] then Parsed([]) else Faulted(NoGetMethod)
          case JString(s) => if s == "" then Parsed([]) else Faulted(NoGetMethod)
          case _ => Faulted(NotIterable))
       case _ => Faulted(NoGetMethod))
    case _ => Faulted(NoGetMethod)
  }

  /** `result.get("url", "")` for one entry. */
  function UrlValue(entry: Json): Parsed<Json>
  {
    match entry
    case JObject(f) => Parsed(Lookup(f, "url", JString("")))
    case _ => Faulted(NoGetMethod)
  }

  /** `[result.get("url", "") for result in results]`: stops at the first entry that is not an object. */
  function UrlValues(entries: seq<Json>): (r: Parsed<seq<Json>>)
    ensures r.Parsed? <==> forall k :: 0 <= k < |entries| ==> entries[k].JObject?
    ensures r.Parsed? ==> |r.value| == |entries|
    ensures r.Parsed? ==> forall k :: 0 <= k < |entries| ==> UrlValue(entries[k]) == Parsed(r.value[k])
  {
    if entries == [] then Parsed([])
    else
      match UrlValue(entries[0])
      case Faulted(f) => Faulted(f)
      case Parsed(v) =>
        match UrlValues(entries[1..])
        case Faulted(f) => Faulted(f)
        case Parsed(vs) => Parsed([v] + vs)
  }

  /** The url values become `result_urls` only when every one of them is a string. */
  function AsText(values: seq<Json>): (r: Parsed<seq<string>>)
    ensures r.Parsed? ==> |r.value| == |values|
  {
    if forall k :: 0 <= k < |values| ==> values[k].JString? then
      Parsed(seq(|values|, k requires 0 <= k < |values| => values[k].s))
    else
      Faulted(UrlNotText)
  }

  /** The URL list a 200 response carries, or why it carries none. */
  function BodyUrls(body: Option<Json>): Parsed<seq<string>>
  {
    match body
    case None => Faulted(InvalidJson)
    case Some(data) =>
      match ResultEntries(data)
      case Faulted(f) => Faulted(f)
      case Parsed(entries) =>
        match UrlValues(entries)
        case Faulted(f) => Faulted(f)
        case Parsed(values) => AsText(values)
  }

  /** `BraveSearchEngine.__call__` given the endpoint's response to this query. */
  function Search(query: string, response: Response): (out: EngineOutcome)
    ensures response.statusCode == NoResultsStatus ==> out == Urls([])
    ensures response.statusCode != NoResultsStatus && response.statusCode != OkStatus ==>
              out == Raised(HttpErrorMessage(query, response.statusCode))
    ensures response.statusCode == OkStatus ==> (out.Urls? <==> BodyUrls(response.body).Parsed?)
  {
    if response.statusCode == NoResultsStatus then Urls([])
    else if response.statusCode != OkStatus then Raised(HttpErrorMessage(query, response.statusCode))
    else
      match BodyUrls(response.body)
      case Parsed(urls) => Urls(urls)
      case Faulted(f) => Raised(Describe(f))
  }

  /** The engine that queries the given endpoint. */
  function AsEngine(server: Server): SearchEngine
  {
    (query: string, count: int) => Search(query, server(query, count))
  }

  /** The URL an entry contributes: its `url` string, or "" when it has none. */
  function UrlOrEmpty(fields: map<string, Json>): string
  {
    if "url" in fields && fields["url"].JString? then fields["url"].s else ""
  }

  /** Only an unexpected status or an unusable 200 body is an error; 422 never is. */
  lemma SearchFailsExactly(query: string, response: Response)
    ensures Search(query, response).Raised? <==>
              response.statusCode != NoResultsStatus &&
              (response.statusCode != OkStatus || BodyUrls(response.body).Faulted?)
  {
  }

  /**
   * A 200 response whose `web.results` is a list of objects, each with a
   * string `url` or none, yields one URL per entry, in order, "" for a
   * missing one.
   */
  lemma SearchListsEveryEntry(query: string, response: Response, top: map<string, Json>, web: map<string, Json>, entries: seq<Json>)
    requires response.statusCode == OkStatus && response.body == Some(JObject(top))
    requires "web" in top && top["web"] == JObject(web)
    requires "results" in web && web["results"] == JArray(entries)
    requires forall k :: 0 <= k < |entries| ==> entries[k].JObject?
    requires forall k :: 0 <= k < |entries| ==> "url" in entries[k].fields ==> entries[k].fields["url"].JString?
    ensures Search(query, response) ==
              Urls(seq(|entries|, k requires 0 <= k < |entries| => UrlOrEmpty(entries[k].fields)))
  {
    var values := UrlValues(entries);
    assert values.Parsed?;
    forall k | 0 <= k < |entries|
      ensures values.value[k].JString? && values.value[k].s == UrlOrEmpty(entries[k].fields)
    {
      assert UrlValue(entries[k]) == Parsed(values.value[k]);
    }
  }

  /** A 200 response without `web`, or whose `web` has no `results`, yields no URLs and no error. */
  lemma SearchMissingKeysYieldNothing(query: string, response: Response, top: map<string, Json>)
    requires response.statusCode == OkStatus && response.body == Some(JObject(top))
    requires "web" !in top || (top["web"].JObject? && "results" !in top["web"].fields)
    ensures Search(query, response) == Urls([])
  {
    assert ResultEntries(JObject(top)) == Parsed([]);
  }
}
