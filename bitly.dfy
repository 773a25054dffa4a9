/** The bit.ly client: every call is signed with the client's credentials,
    a fixed API version and the JSON format, and `shorten` reads the short
    URL out of the decoded response. The network is the `fetch` parameter,
    which maps the request sent to the JSON document received. */
module Bitly {
  import opened Python
  import opened Http

  const BaseUrl := "http://api.bit.ly/"
  const ApiVersion := "2.0.1"

  /** The parameters `_apicall` writes into every call, whatever the caller passed. */
  const SignedKeys: set<string> := {"login", "apiKey", "version", "format"}

  type Fetch = Request -> Json

  class Bitly {
    const username: string
    const apiKey: string

    /** `Bitly(username, api_key, method=None)`: the `method` argument is
        accepted and ignored. */
    constructor (username: string, apiKey: string, apiMethod: Option<string> := None)
      ensures this.username == username && this.apiKey == apiKey
    {
      this.username := username;
      this.apiKey := apiKey;
    }

    /** `__repr__`: the user name between a fixed opening and `>`, so the user
        name can be read back from the text. */
    function Repr(): (r: string)
      ensures |r| == |username| + 9
      ensures r[..8] == "<Bitly: " && r[|r| - 1] == '>'
      ensures r[8..|r| - 1] == username
    {
      "<Bitly: " + username + ">"
    }

    /** `_apicall(method, **params)`: the caller's parameters are overwritten
        in place with the four signing parameters, and the request goes to
        the endpoint named by `apiMethod`. */
    method ApiCall(apiMethod: string, params: map<string, Param>, fetch: Fetch)
      returns (req: Request, response: Json)
      ensures req.prefix == BaseUrl + apiMethod + "?"
      ensures req.query.Keys == params.Keys + SignedKeys
      ensures req.query["login"] == PText(username)
      ensures req.query["apiKey"] == PText(apiKey)
      ensures req.query["version"] == PText(ApiVersion)
      ensures req.query["format"] == PText("json")
      ensures forall k :: k in params && k !in SignedKeys ==> req.query[k] == params[k]
      ensures response == fetch(req)
    {
      var p := params;
      p := p["login" := PText(username)];
      p := p["apiKey" := PText(apiKey)];
      p := p["version" := PText(ApiVersion)];
      p := p["format" := PText("json")];
      req := Request(BaseUrl + apiMethod + "?", p);
      response := fetch(req);
    }

    /** `shorten(long_url)`: one signed call to the `shorten` endpoint whose
        only caller parameter is `longUrl`, then the response is interpreted
        as the code is written, by `ShortenResponseAsWritten`; on success this
        agrees with the intended `ShortenResponse`. */
    method Shorten(longUrl: string, fetch: Fetch) returns (req: Request, r: Result<Json>)
      ensures req.prefix == BaseUrl + "shorten?"
      ensures req.query == map["longUrl" := PText(longUrl), "login" := PText(username),
                               "apiKey" := PText(apiKey), "version" := PText(ApiVersion),
                               "format" := PText("json")]
      ensures r == ShortenResponseAsWritten(longUrl, fetch(req))
      ensures r.Ok? ==> r == ShortenResponse(longUrl, fetch(req))
    {
      var response;
      req, response := ApiCall("shorten", map["longUrl" := PText(longUrl)], fetch);
      r := ShortenResponseAsWritten(longUrl, response);
    }
  }

  /** True when the response reports an error: `response.get('statusCode', '') == 'ERROR'`. */
  predicate IsErrorStatus(fields: map<string, Json>) {
    "statusCode" in fields && fields["statusCode"] == JString("ERROR")
  }

  /** `response['results'][long_url]['shortUrl']`, failing on the first
      lookup that does not find its key. */
  function ResultsLookup(longUrl: string, response: Json): (r: Result<Json>)
    ensures r.Ok? <==>
      && response.JObject? && "results" in response.fields
      && response.fields["results"].JObject? && longUrl in response.fields["results"].fields
      && response.fields["results"].fields[longUrl].JObject?
      && "shortUrl" in response.fields["results"].fields[longUrl].fields
    ensures r.Ok? ==> r.value == response.fields["results"].fields[longUrl].fields["shortUrl"]
  {
    match Index(response, "results")
    case Err(e) => Err(e)
    case Ok(results) =>
      match Index(results, longUrl)
      case Err(e) => Err(e)
      case Ok(entry) => Index(entry, "shortUrl")
  }

  /** `shorten`'s handling of the response exactly as the code is written:
      the error branch reads `results`, a name that is never bound, so it
      raises `NameError` and the upstream error message is lost. */
  function ShortenResponseAsWritten(longUrl: string, response: Json): (r: Result<Json>)
    ensures !response.JObject? ==> r == Err(AttributeError("get"))
    ensures response.JObject? && IsErrorStatus(response.fields) ==> r == Err(NameError("results"))
    ensures response.JObject? && !IsErrorStatus(response.fields) ==> r == ResultsLookup(longUrl, response)
  {
    match Get(response, "statusCode", JString(""))
    case Err(e) => Err(e)
    case Ok(status) =>
      if status == JString("ERROR") then Err(NameError("results"))
      else ResultsLookup(longUrl, response)
  }

  /** `shorten`'s handling of the response as intended: on an error status
      it raises `BitlyError` carrying the response's `errorMessage`. A
      missing `statusCode` counts as success. */
  function ShortenResponse(longUrl: string, response: Json): (r: Result<Json>)
    ensures !response.JObject? ==> r == Err(AttributeError("get"))
    ensures response.JObject? && IsErrorStatus(response.fields) ==>
      r == if "errorMessage" in response.fields
           then Err(BitlyError(response.fields["errorMessage"]))
           else Err(KeyError("errorMessage"))
    ensures response.JObject? && !IsErrorStatus(response.fields) ==> r == ResultsLookup(longUrl, response)
    ensures r.Ok? ==> r == ShortenResponseAsWritten(longUrl, response)
  {
    match Get(response, "statusCode", JString(""))
    case Err(e) => Err(e)
    case Ok(status) =>
      if status == JString("ERROR") then
        match Index(response, "errorMessage")
        case Err(e) => Err(e)
        case Ok(message) => Err(BitlyError(message))
      else ResultsLookup(longUrl, response)
  }

  /** The success document the service returns for `longUrl`. */
  function SuccessResponse(longUrl: string, shortUrl: string): Json {
    JObject(map["statusCode" := JString("OK"),
                "results" := JObject(map[longUrl := JObject(map["shortUrl" := JString(shortUrl)])])])
  }

  /** The error document the service returns. */
  function ErrorResponse(message: string): Json {
    JObject(map["statusCode" := JString("ERROR"), "errorMessage" := JString(message)])
  }

  /** Reading a success document back gives the short URL it carries, for
      every long URL: the lookup is keyed by exactly the input string. */
  lemma ShortenReadsSuccess(longUrl: string, shortUrl: string)
    ensures ShortenResponse(longUrl, SuccessResponse(longUrl, shortUrl)) == Ok(JString(shortUrl))
  {
    var response := SuccessResponse(longUrl, shortUrl);
    assert !IsErrorStatus(response.fields);
  }

  /** The same success document asked about any other URL fails with a
      `KeyError` naming that URL. */
  lemma ShortenOtherUrlMisses(longUrl: string, other: string, shortUrl: string)
    requires other != longUrl
    ensures ShortenResponse(other, SuccessResponse(longUrl, shortUrl)) == Err(KeyError(other))
  {
    var response := SuccessResponse(longUrl, shortUrl);
    assert !IsErrorStatus(response.fields);
  }

  /** An error document yields the intended `BitlyError` with its message;
      the code as written raises `NameError` for the same document. */
  lemma ErrorPathRaisesNameError(longUrl: string, message: string)
    ensures ShortenResponse(longUrl, ErrorResponse(message)) == Err(BitlyError(JString(message)))
    ensures ShortenResponseAsWritten(longUrl, ErrorResponse(message)) == Err(NameError("results"))
  {
    assert IsErrorStatus(ErrorResponse(message).fields);
  }
}
