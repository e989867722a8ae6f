/** The news fetcher of app/services/news_fetcher.py: choosing the NewsAPI
    endpoint and its query parameters, handling the reply, and turning the
    raw article dictionaries into Articles. The HTTP call itself is a
    function from request to reply supplied by the caller. */
module NewsFetcher {
  import opened Wrappers
  import opened Text
  import opened Models

  /** The `source` entry of a raw article dictionary: absent, null, or a
      dictionary. */
  datatype RawSource = NoSource | NullSource | SourceDict(fields: map<string, Value>)

  /** A raw article dictionary as NewsAPI sends it: its string-or-null
      entries, and its `source` entry. */
  datatype RawArticle = RawArticle(fields: map<string, Value>, source: RawSource)

  /** `article_data.get("source", {}).get("name", "")`; calling `get` on a
      null source raises AttributeError. */
  function SourceName(s: RawSource): Result<Value, Exception>
  {
    match s
    case NoSource => Success(Str(""))
    case NullSource => Failure(AttributeError("get"))
    case SourceDict(m) => Success(Get(m, "name", Str("")))
  }

  /** The body of the loop of `parse_articles` for one dictionary. */
  function ParseOne(d: RawArticle): (r: Result<Article, Exception>)
    ensures r.Success? <==> !d.source.NullSource? && !("url" in d.fields && d.fields["url"].Null?)
    ensures r.Failure? ==> r.error == AttributeError(if d.source.NullSource? then "get" else "encode")
  {
    match SourceName(d.source)
    case Failure(e) => Failure(e)
    case Success(name) =>
      NewArticle(Get(d.fields, "title", Str("")),
                 Get(d.fields, "description", Str("")),
                 Get(d.fields, "content", Str("")),
                 Get(d.fields, "url", Str("")),
                 name,
                 Get(d.fields, "publishedAt", Str("")),
                 Get(d.fields, "author", Str("")))
  }

  /** `parse_articles`: all articles in order, or the first exception. */
  function Parsed(raws: seq<RawArticle>): (r: Result<seq<Article>, Exception>)
    ensures r.Success? ==> |r.value| == |raws|
    ensures r.Failure? ==> exists i | 0 <= i < |raws| :: ParseOne(raws[i]) == Failure(r.error)
                                                      && forall j | 0 <= j < i :: ParseOne(raws[j]).Success?
  {
    if raws == [] then Success([])
    else
      match ParseOne(raws[0])
      case Failure(e) => Failure(e)
      case Success(a) => Prepend([a], Parsed(raws[1..]))
  }

  function Prepend(xs: seq<Article>, r: Result<seq<Article>, Exception>): (p: Result<seq<Article>, Exception>)
    ensures p.Success? <==> r.Success?
    ensures p.Success? ==> |p.value| == |xs| + |r.value| && p.value[..|xs|] == xs && p.value[|xs|..] == r.value
    ensures p.Failure? ==> p.error == r.error
  {
    match r
    case Success(ys) => Success(xs + ys)
    case Failure(e) => Failure(e)
  }

  lemma PrependNothing(r: Result<seq<Article>, Exception>)
    ensures Prepend([], r) == r
  {
    if r.Success? {
      assert [] + r.value == r.value;
    }
  }

  lemma PrependTwice(xs: seq<Article>, ys: seq<Article>, r: Result<seq<Article>, Exception>)
    ensures Prepend(xs, Prepend(ys, r)) == Prepend(xs + ys, r)
  {
    if r.Success? {
      assert xs + (ys + r.value) == (xs + ys) + r.value;
    }
  }

  /** Parsing succeeds exactly when every dictionary parses, and then gives
      one Article per dictionary, in the same order. */
  lemma {:induction false} ParsedOneToOne(raws: seq<RawArticle>)
    ensures Parsed(raws).Success? <==> forall i | 0 <= i < |raws| :: ParseOne(raws[i]).Success?
    ensures Parsed(raws).Success? ==>
              |Parsed(raws).value| == |raws|
              && forall i | 0 <= i < |raws| :: Parsed(raws).value[i] == ParseOne(raws[i]).value
  {
    if raws != [] {
      ParsedOneToOne(raws[1..]);
      assert forall i | 1 <= i < |raws| :: raws[1..][i - 1] == raws[i];
    }
  }

  /** Missing entries become "", a missing source gives source name "",
      and a present entry is taken as it is, None included. */
  lemma ParseOneDefaults(d: RawArticle)
    requires d.source.NoSource? || d.source.SourceDict?
    requires "url" !in d.fields || d.fields["url"].Str?
    ensures ParseOne(d).Success?
    ensures var a := ParseOne(d).value;
            && a.title == Get(d.fields, "title", Str(""))
            && a.description == Get(d.fields, "description", Str(""))
            && a.content == Get(d.fields, "content", Str(""))
            && a.url == (if "url" in d.fields then d.fields["url"].s else "")
            && a.sourceName == (if d.source.SourceDict? then Get(d.source.fields, "name", Str("")) else Str(""))
            && a.publishedAt == Get(d.fields, "publishedAt", Str(""))
            && a.author == Get(d.fields, "author", Str(""))
  {
  }

  /** A dictionary with a null source or a null url makes parsing raise. */
  lemma ParseOneFails(d: RawArticle)
    requires d.source.NullSource? || ("url" in d.fields && d.fields["url"].Null?)
    ensures ParseOne(d).Failure?
  {
  }

  /** The default query of `fetch_news`. */
  const DefaultQuery: string := "top headlines"

  /** NewsAPI's top-headlines endpoint, `Config.news_base_url`. */
  const TopHeadlinesUrl: string := "https://newsapi.org/v2/top-headlines"

  /** The attributes a `Config` instance has. */
  const ConfigAttributes: set<string> :=
    {"news_api_key", "news_base_url", "groq_api_key", "llm_provider", "model", "temperature",
     "llm_max_tokens", "validate_news_api_key", "validate_groq_api_key"}

  /** A NewsFetcher: the API key and the two endpoint URLs. */
  datatype Fetcher = Fetcher(apiKey: string, baseUrl: string, everythingUrl: string)

  /** `NewsFetcher()` as written: it reads `news_api_key`, `news_base_url`
      and `news_everything_url` from a Config, in that order, and Config
      never sets the last, so construction raises AttributeError.
      `everythingUrl` is what the configuration would hold under that name. */
  function FromConfigAsWritten(newsApiKey: string, everythingUrl: string): (r: Result<Fetcher, Exception>)
    ensures r == Failure(AttributeError("news_everything_url"))
  {
    match (Attr(ConfigAttributes, "news_api_key"), Attr(ConfigAttributes, "news_base_url"),
           Attr(ConfigAttributes, "news_everything_url"))
    case (Failure(e), _, _) => Failure(e)
    case (_, Failure(e), _) => Failure(e)
    case (_, _, Failure(e)) => Failure(e)
    case _ => Success(NewFetcher(newsApiKey, everythingUrl))
  }

  lemma MissingEverythingUrl()
    ensures "news_everything_url" !in ConfigAttributes
    ensures "news_api_key" in ConfigAttributes && "news_base_url" in ConfigAttributes
  {
  }

  /** `NewsFetcher()` as intended: the key and base URL from the
      configuration, and the URL of the "everything" endpoint given. */
  function NewFetcher(newsApiKey: string, everythingUrl: string): (f: Fetcher)
    ensures f.apiKey == newsApiKey && f.baseUrl == TopHeadlinesUrl && f.everythingUrl == everythingUrl
  {
    Fetcher(newsApiKey, TopHeadlinesUrl, everythingUrl)
  }

  /** A query parameter as requests receives it. */
  datatype Param = PStr(s: string) | PInt(n: int) | PNone

  function OfValue(v: Value): Param
  {
    match v
    case Str(s) => PStr(s)
    case Null => PNone
  }

  function OfInt(n: Option<int>): Param
  {
    match n
    case Some(k) => PInt(k)
    case None => PNone
  }

  /** An HTTP GET: the URL and its query parameters. */
  datatype Request = Request(url: string, params: map<string, Param>)

  /** The query is truthy and not the default one. */
  predicate IsKeywordQuery(query: Option<string>)
  {
    query.Some? && query.value != "" && query.value != DefaultQuery
  }

  /** The request `fetch_news` sends: the "everything" endpoint for a
      keyword query, the top-headlines endpoint with country and category
      otherwise. */
  function FetchRequest(f: Fetcher, query: Option<string> := Some(DefaultQuery),
                        country: Value := Str("us"), category: Value := Str("sports"),
                        pageSize: Option<int> := Some(5), page: Option<int> := Some(1)): (r: Request)
    ensures "q" in r.params <==> IsKeywordQuery(query)
    ensures IsKeywordQuery(query) ==>
              && r.url == f.everythingUrl
              && r.params.Keys == {"apiKey", "q", "pageSize", "page", "sortBy"}
              && r.params["q"] == PStr(query.value) && r.params["sortBy"] == PStr("relevancy")
    ensures !IsKeywordQuery(query) ==>
              && r.url == f.baseUrl
              && r.params.Keys == {"apiKey", "country", "category", "pageSize", "page"}
              && r.params["country"] == OfValue(country) && r.params["category"] == OfValue(category)
    ensures r.params["apiKey"] == PStr(f.apiKey)
            && r.params["pageSize"] == OfInt(pageSize) && r.params["page"] == OfInt(page)
  {
    if query.Some? && query.value != "" && query.value != DefaultQuery then
      Request(f.everythingUrl,
              map["apiKey" := PStr(f.apiKey), "q" := PStr(query.value), "pageSize" := OfInt(pageSize),
                  "page" := OfInt(page), "sortBy" := PStr("relevancy")])
    else
      Request(f.baseUrl,
              map["apiKey" := PStr(f.apiKey), "country" := OfValue(country),
                  "category" := OfValue(category), "pageSize" := OfInt(pageSize),
                  "page" := OfInt(page)])
  }

  /** The request `search_everything` sends: no page parameter. */
  function EverythingRequest(f: Fetcher, query: string, pageSize: int := 20,
                             sortBy: string := "relevancy"): (r: Request)
    ensures r.url == f.everythingUrl
    ensures r.params.Keys == {"apiKey", "q", "pageSize", "sortBy"} && "page" !in r.params
    ensures r.params["q"] == PStr(query) && r.params["pageSize"] == PInt(pageSize)
            && r.params["sortBy"] == PStr(sortBy) && r.params["apiKey"] == PStr(f.apiKey)
  {
    Request(f.everythingUrl,
            map["apiKey" := PStr(f.apiKey), "q" := PStr(query), "pageSize" := PInt(pageSize),
                "sortBy" := PStr(sortBy)])
  }

  /** With the intended constructor, a keyword query goes to the
      "everything" URL and any other query to the top-headlines URL. */
  lemma EndpointChoice(apiKey: string, everythingUrl: string, query: Option<string>,
                       country: Value, category: Value, pageSize: Option<int>, page: Option<int>)
    requires everythingUrl != TopHeadlinesUrl
    ensures var r := FetchRequest(NewFetcher(apiKey, everythingUrl), query, country, category, pageSize, page);
            (r.url == everythingUrl <==> IsKeywordQuery(query))
            && (r.url == TopHeadlinesUrl <==> !IsKeywordQuery(query))
  {
  }

  /** The default query, an empty query and no query all select the
      top-headlines endpoint. */
  lemma NonKeywordQueries()
    ensures !IsKeywordQuery(Some(DefaultQuery)) && !IsKeywordQuery(Some("")) && !IsKeywordQuery(None)
  {
  }

  /** `fetch_news()` with every argument left out asks the top-headlines
      endpoint for five sports articles from the US, first page. */
  lemma DefaultFetchRequest(f: Fetcher)
    ensures FetchRequest(f) == Request(f.baseUrl,
              map["apiKey" := PStr(f.apiKey), "country" := PStr("us"), "category" := PStr("sports"),
                  "pageSize" := PInt(5), "page" := PInt(1)])
  {
    NonKeywordQueries();
    var r := FetchRequest(f);
    var m := map["apiKey" := PStr(f.apiKey), "country" := PStr("us"), "category" := PStr("sports"),
                 "pageSize" := PInt(5), "page" := PInt(1)];
    assert r.params.Keys == m.Keys;
  }

  /** `fetch_news(country="us", page_size=3)` keeps the other defaults. */
  lemma CountryAndPageSizeRequest(f: Fetcher)
    ensures var r := FetchRequest(f, country := Str("us"), pageSize := Some(3));
            r.url == f.baseUrl && r.params["category"] == PStr("sports")
            && r.params["pageSize"] == PInt(3) && r.params["page"] == PInt(1)
  {
    NonKeywordQueries();
  }

  /** `search_everything(query)` asks for 20 articles by relevancy. */
  lemma DefaultEverythingRequest(f: Fetcher, query: string)
    ensures var r := EverythingRequest(f, query);
            r.params["pageSize"] == PInt(20) && r.params["sortBy"] == PStr("relevancy")
  {
  }

  /** The decoded JSON body of a reply: its `articles` entry, if any. */
  datatype Body = Body(articles: Option<seq<RawArticle>>)

  /** What `requests.get` produced: a RequestException, or a status and a
      body that is JSON (Some) or not (None). */
  datatype Reply = NoReply | Reply(status: int, body: Option<Body>)

  /** The outcome of `fetch_news` and `search_everything` for a reply:
      the body is decoded before the status is looked at, and a decoding
      error is a RequestException. */
  function Outcome(reply: Reply): (r: Result<seq<Article>, Exception>)
    ensures r.Success? ==> reply.Reply? && reply.status == 200 && reply.body.Some?
    ensures r.Failure? && r.error.ApiStatusError? ==> reply.Reply? && r.error.status == reply.status != 200
    ensures reply.NoReply? || reply.body.None? ==> r == Failure(RequestFailed)
    ensures reply.Reply? && reply.status == 200 && reply.body.Some? ==>
              r == Parsed(if reply.body.value.articles.Some? then reply.body.value.articles.value else [])
  {
    match reply
    case NoReply => Failure(RequestFailed)
    case Reply(status, body) =>
      if body.None? then Failure(RequestFailed)
      else if status == 200 then
        Parsed(match body.value.articles case Some(xs) => xs case None => [])
      else Failure(ApiStatusError(status))
  }

  /** A reply with status other than 200 and a JSON body is an error
      carrying the status; a 200 reply without articles gives []. */
  lemma OutcomeCases(status: int, body: Body)
    ensures status != 200 ==> Outcome(Reply(status, Some(body))) == Failure(ApiStatusError(status))
    ensures body.articles.None? ==> Outcome(Reply(200, Some(body))) == Success([])
  {
  }

  /** `parse_articles`, with its loop. */
  method ParseArticles(raws: seq<RawArticle>) returns (r: Result<seq<Article>, Exception>)
    ensures r == Parsed(raws)
  {
    var articles: seq<Article> := [];
    assert raws[0..] == raws;
    PrependNothing(Parsed(raws));
    for i := 0 to |raws|
      invariant Parsed(raws) == Prepend(articles, Parsed(raws[i..]))
    {
      assert raws[i..][0] == raws[i] && raws[i..][1..] == raws[i + 1..];
      var a := ParseOne(raws[i]);
      if a.Failure? {
        return Failure(a.error);
      }
      PrependTwice(articles, [a.value], Parsed(raws[i + 1..]));
      articles := articles + [a.value];
    }
    assert raws[|raws|..] == [] && articles + [] == articles;
    r := Success(articles);
  }

  /** `fetch_news`: builds the request, sends it with `get`, and handles
      the reply. */
  method FetchNews(f: Fetcher, get: Request -> Reply, query: Option<string> := Some(DefaultQuery),
                   country: Value := Str("us"), category: Value := Str("sports"),
                   pageSize: Option<int> := Some(5), page: Option<int> := Some(1))
    returns (r: Result<seq<Article>, Exception>)
    ensures r == Outcome(get(FetchRequest(f, query, country, category, pageSize, page)))
  {
    var request := FetchRequest(f, query, country, category, pageSize, page);
    r := Send(request, get);
  }

  /** `search_everything`. */
  method SearchEverything(f: Fetcher, get: Request -> Reply, query: string, pageSize: int := 20,
                          sortBy: string := "relevancy")
    returns (r: Result<seq<Article>, Exception>)
    ensures r == Outcome(get(EverythingRequest(f, query, pageSize, sortBy)))
  {
    r := Send(EverythingRequest(f, query, pageSize, sortBy), get);
  }

  method Send(request: Request, get: Request -> Reply) returns (r: Result<seq<Article>, Exception>)
    ensures r == Outcome(get(request))
  {
    var reply := get(request);
    if reply.NoReply? || reply.body.None? {
      return Failure(RequestFailed);
    }
    if reply.status != 200 {
      return Failure(ApiStatusError(reply.status));
    }
    var raws := match reply.body.value.articles case Some(xs) => xs case None => [];
    r := ParseArticles(raws);
  }
}
