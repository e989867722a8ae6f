/** The request and response schemas of app/schemas.py: what pydantic
    accepts for each field, and the defaults it fills in, as validation
    functions from the fields of a request body to a validated value. */
module Schemas {
  import opened Wrappers
  import opened Text
  import Models

  /** A field of a request body: left out, given as null, or given. */
  datatype Raw<T> = Absent | GivenNull | Given(value: T)

  /** An optional field with a default: left out gives the default, null
      gives None, a value is kept when `ok` accepts it. */
  function OptionalField<T>(f: Raw<T>, default: Option<T>, ok: T -> bool): Result<Option<T>, string>
  {
    match f
    case Absent => Success(default)
    case GivenNull => Success(None)
    case Given(v) => if ok(v) then Success(Some(v)) else Failure("out of range")
  }

  // FetchNewsRequest

  datatype FetchNewsRequest = FetchNewsRequest(
    query: Option<string>,
    country: Option<string>,
    category: Option<string>,
    pageSize: Option<int>,
    page: Option<int>)

  predicate PageSizeOk(n: int) { 1 <= n <= 20 }
  predicate PageOk(n: int) { 1 <= n }

  /** The constraints of FetchNewsRequest: page_size in 1..20 and page at
      least 1 when they are set. */
  predicate ValidFetchNewsRequest(r: FetchNewsRequest)
  {
    (r.pageSize.Some? ==> PageSizeOk(r.pageSize.value)) && (r.page.Some? ==> PageOk(r.page.value))
  }

  /** Validating a FetchNewsRequest body. */
  function ValidateFetchNewsRequest(query: Raw<string>, country: Raw<string>, category: Raw<string>,
                                    pageSize: Raw<int>, page: Raw<int>)
    : (r: Option<FetchNewsRequest>)
    ensures r.Some? <==> (pageSize.Given? ==> PageSizeOk(pageSize.value))
                         && (page.Given? ==> PageOk(page.value))
    ensures r.Some? ==> ValidFetchNewsRequest(r.value)
    ensures r.Some? && pageSize.Absent? ==> r.value.pageSize == Some(10)
    ensures r.Some? && page.Absent? ==> r.value.page == Some(1)
    ensures r.Some? && query.Absent? ==> r.value.query == None
    ensures r.Some? && country.Absent? ==> r.value.country == Some("us")
    ensures r.Some? && category.Absent? ==> r.value.category == Some("sports")
    ensures r.Some? && query.Given? ==> r.value.query == Some(query.value)
    ensures r.Some? && country.Given? ==> r.value.country == Some(country.value)
    ensures r.Some? && category.Given? ==> r.value.category == Some(category.value)
    ensures r.Some? && pageSize.Given? ==> r.value.pageSize == Some(pageSize.value)
    ensures r.Some? && page.Given? ==> r.value.page == Some(page.value)
    ensures r.Some? && query.GivenNull? ==> r.value.query == None
    ensures r.Some? && country.GivenNull? ==> r.value.country == None
    ensures r.Some? && category.GivenNull? ==> r.value.category == None
    ensures r.Some? && pageSize.GivenNull? ==> r.value.pageSize == None
    ensures r.Some? && page.GivenNull? ==> r.value.page == None
  {
    var q := OptionalField(query, None, (s: string) => true);
    var co := OptionalField(country, Some("us"), (s: string) => true);
    var ca := OptionalField(category, Some("sports"), (s: string) => true);
    var ps := OptionalField(pageSize, Some(10), PageSizeOk);
    var p := OptionalField(page, Some(1), PageOk);
    if q.Success? && co.Success? && ca.Success? && ps.Success? && p.Success? then
      Some(FetchNewsRequest(q.value, co.value, ca.value, ps.value, p.value))
    else None
  }

  /** The default FetchNewsRequest: no query, country "us", category
      "sports", page_size 10, page 1. */
  lemma DefaultFetchNewsRequest()
    ensures ValidateFetchNewsRequest(Absent, Absent, Absent, Absent, Absent)
         == Some(FetchNewsRequest(None, Some("us"), Some("sports"), Some(10), Some(1)))
  {
  }

  // SearchRequest and QuestionRequest

  datatype SearchRequest = SearchRequest(query: string, topK: int)

  datatype QuestionRequest = QuestionRequest(question: string, topK: int)

  predicate TopKOk(n: int) { 1 <= n <= 20 }

  /** `top_k`: 5 when left out, null refused, otherwise in 1..20. */
  function TopK(f: Raw<int>): (r: Option<int>)
    ensures r.Some? <==> f.Absent? || (f.Given? && TopKOk(f.value))
    ensures r.Some? ==> TopKOk(r.value)
    ensures f.Absent? ==> r == Some(5)
    ensures f.Given? && TopKOk(f.value) ==> r == Some(f.value)
  {
    match f
    case Absent => Some(5)
    case GivenNull => None
    case Given(n) => if TopKOk(n) then Some(n) else None
  }

  /** Validating a SearchRequest body: the query is required. */
  function ValidateSearchRequest(query: Raw<string>, topK: Raw<int>): (r: Option<SearchRequest>)
    ensures r.Some? <==> query.Given? && TopK(topK).Some?
    ensures r.Some? ==> r.value.query == query.value && TopKOk(r.value.topK)
    ensures r.Some? && topK.Absent? ==> r.value.topK == 5
    ensures r.Some? && topK.Given? ==> r.value.topK == topK.value
  {
    if query.Given? && TopK(topK).Some? then Some(SearchRequest(query.value, TopK(topK).value))
    else None
  }

  /** Validating a QuestionRequest body: the question is required. */
  function ValidateQuestionRequest(question: Raw<string>, topK: Raw<int>): (r: Option<QuestionRequest>)
    ensures r.Some? <==> question.Given? && TopK(topK).Some?
    ensures r.Some? ==> r.value.question == question.value && TopKOk(r.value.topK)
    ensures r.Some? && topK.Absent? ==> r.value.topK == 5
    ensures r.Some? && topK.Given? ==> r.value.topK == topK.value
  {
    if question.Given? && TopK(topK).Some? then Some(QuestionRequest(question.value, TopK(topK).value))
    else None
  }

  // ArticleResponse

  datatype ArticleResponse = ArticleResponse(
    id: string,
    content: string,
    title: string,
    url: string,
    sourceName: string,
    author: Option<string>,
    publishedAt: Option<string>)

  /** The str held under `key`, if any: None when the key is missing or
      holds None. */
  function StrField(d: Models.Record, key: string): Option<string>
  {
    if key in d && d[key].Str? then Some(d[key].s) else None
  }

  /** Building an ArticleResponse from a record: id, content, title, url
      and source_name must be strings; author and published_at may be
      missing or None; other keys are ignored. */
  function ArticleResponseOf(d: Models.Record): (r: Option<ArticleResponse>)
    ensures r.Some? <==> forall k | k in {"id", "content", "title", "url", "source_name"} ::
                           k in d && d[k].Str?
    ensures r.Some? ==> Some(r.value.id) == StrField(d, "id") && Some(r.value.content) == StrField(d, "content")
    ensures r.Some? ==> Some(r.value.title) == StrField(d, "title") && Some(r.value.url) == StrField(d, "url")
    ensures r.Some? ==> Some(r.value.sourceName) == StrField(d, "source_name")
    ensures r.Some? ==> r.value.author == StrField(d, "author") && r.value.publishedAt == StrField(d, "published_at")
  {
    var id := StrField(d, "id");
    var content := StrField(d, "content");
    var title := StrField(d, "title");
    var url := StrField(d, "url");
    var sourceName := StrField(d, "source_name");
    if id.Some? && content.Some? && title.Some? && url.Some? && sourceName.Some? then
      Some(ArticleResponse(id.value, content.value, title.value, url.value, sourceName.value,
                           StrField(d, "author"), StrField(d, "published_at")))
    else None
  }

  /** The record of an article whose title, content and source name are
      strings becomes a response with the article's id and fields; one
      whose content is None is refused. */
  lemma ResponseOfArticle(a: Models.Article)
    ensures a.title.Str? && a.content.Str? && a.sourceName.Str? ==>
              ArticleResponseOf(a.ToDict()) == Some(ArticleResponse(
                a.Id(), a.content.s, a.title.s, a.url, a.sourceName.s,
                if a.author.Str? then Some(a.author.s) else None,
                if a.publishedAt.Str? then Some(a.publishedAt.s) else None))
    ensures a.content.Null? ==> ArticleResponseOf(a.ToDict()) == None
  {
    var d := a.ToDict();
    assert d["content"] == a.content;
  }
}
