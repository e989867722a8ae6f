# News retrieval core, modelled in Dafny

This project models the retrieval core of a small news question-answering
service:

- the `Article` entity, whose identity is the first six hex digits of the md5
  digest of its URL;
- the flat JSON record store (`ArticleStorage`), which is read fail-soft,
  rewritten wholesale and merged with deduplication by id;
- the vector-index wrapper (`RAGService`), which inserts one article at a time
  with a check before each insert, and reshapes query hits into scored results;
- the NewsAPI fetcher's endpoint and parameter choice, reply handling and
  article parsing;
- the answer shaping of `ask_question` around the language-model call;
- the pydantic request and response schemas with their defaults and ranges.

External collaborators are parameters or uninterpreted:

- md5 is an arbitrary fixed function known only to return 32 lower-case hex
  digits (`Models.Md5HexDigest`);
- the embedding model is a fixed function from text to vector, given when the
  service is built;
- the Chroma collection is a map from id to (document, embedding, metadata);
- the collection's nearest-neighbour answer is a sequence of hits;
- the HTTP call is a function from request to reply;
- the prompt-and-model chain is a function from (context, question) to text.

Python's `str | None` is `Text.Value`. `Text.Render` gives its f-string
rendering, in which `None` prints as "None". `str.join` and `str.strip` are
`Text.Join` and `Text.Strip`, with Python's whitespace set.

The modules follow the source files:

| file | module |
|---|---|
| wrappers.dfy | `Wrappers`: Option, Result and the exceptions raised |
| text.dfy | `Text`: str-or-None values and the string helpers |
| models.dfy | `Models`: app/models.py |
| storage.dfy | `Storage`: app/services/storage.py |
| rag_service.dfy | `RagService`: app/services/rag_service.py |
| news_fetcher.dfy | `NewsFetcher`: app/services/news_fetcher.py |
| llm_service.dfy | `LlmService`: app/services/llm_service.py |
| schemas.dfy | `Schemas`: app/schemas.py |

A merge into the flat store does not always keep ids distinct. The code fixes
the set of existing ids before its loop (app/services/storage.py:37), so an
article given twice in one batch is stored twice. `Storage.BatchRepeatStoredTwice`
shows this, and `Storage.MergeDistinct` gives a condition under which ids stay distinct:
the existing records and the batch each have distinct ids.

## Model

| member | source | states |
|---|---|---|
| Text.Join | app/models.py:27 | `str.join`: no parts give "", and otherwise the first part begins the result |
| Text.Strip | app/models.py:27 | `str.strip`: the result is no longer than the input, neither of its ends is whitespace, and a string with no whitespace at either end is unchanged |
| Text.TrimEnd | app/models.py:27 | the trailing-whitespace part of `strip`: the result is a prefix, it does not end in whitespace, and everything removed is whitespace |
| Text.TrimStart | app/models.py:27 | the leading-whitespace part of `strip`: the result is a suffix, it does not start with whitespace, and everything removed is whitespace |
| Text.StripKeepsPrefix | app/models.py:27 | a prefix that starts and ends with non-space survives `strip`, and what `strip` removes is only whitespace |
| Text.Decimal | app/services/llm_service.py:45 | `str(n)` of a natural number: digits only, with no leading zero, whose decimal value is n |
| Text.DecimalInjective | app/services/llm_service.py:45 | different numbers give different strings, so the block numbers of a context are distinct |
| Models.Utf8Char | app/models.py:15 | one character encodes to 1 to 4 UTF-8 bytes, and to exactly 1 byte iff it is ASCII |
| Models.Utf8Encode | app/models.py:15 | an encoded string has between 1 and 4 bytes per character |
| Models.IdOf | app/models.py:14-15 | the id is 6 characters long, all lower-case hex digits |
| Models.Article.FullText | app/models.py:17-27 | the full text is empty or neither starts nor ends with whitespace |
| Models.Article.ToDict | app/models.py:29-39 | the record has exactly the eight keys id, title, description, content, url, source_name, published_at, author, each holding the article's id or the field of that name |
| Models.NewArticle | app/models.py:4-12 | construction checks nothing and, of the str-or-None URLs modelled, fails only when the URL is None (`None.encode`); otherwise every field is kept as given and the author defaults to None |
| Models.SameUrlSameId | app/models.py:12-15 | two articles with the same URL have the same id, whatever their other fields |
| Models.EmptyUrlsCollide | app/models.py:4-15 | every article built with an empty URL is accepted and gets the same id |
| Models.FullTextLayout | app/models.py:17-27 | the full text is the seven labelled lines joined by newlines, starts with "Title: " and the title, keeps everything up to the "Author:" label, and strip removes only trailing whitespace of the author |
| Models.OmittedAuthor | app/models.py:4-27 | an omitted author is None and the full text then ends with "Author: None", untouched by strip |
| Storage.Encode | app/services/storage.py:57 | one record per article, each with the eight record keys and the article's id |
| Storage.FromDict | app/services/storage.py:19-28 | a record becomes an article iff it has the seven keys read and its url is a str; then it is the article whose seven fields are the record's entries (the id is recomputed from the url) |
| Storage.Contents | app/services/storage.py:13-33 | a missing or unreadable file reads as []; a list of records reads as one article per record, each the decoding of its record, or as [] when any record fails to decode |
| Storage.RecordRoundTrip | app/services/storage.py:19-28 | the record written for an article reads back as the same article |
| Storage.WriteReadRoundTrip | app/services/storage.py:13-30 | writing a list of articles and reading the file back gives the same articles in the same order |
| Storage.Unseen | app/services/storage.py:41-44 | the articles kept from a batch are no more than the batch |
| Storage.UnseenFrom | app/services/storage.py:41-44 | every kept article comes from the batch and has an id outside the existing ids |
| Storage.UnseenStep | app/services/storage.py:41-46 | one more article is appended when its id is new and counted as a duplicate otherwise |
| Storage.NewPlusDuplicates | app/services/storage.py:39-46 | new count plus duplicate count equals the batch length |
| Storage.UnseenKeeps | app/services/storage.py:41-44 | an article of the batch whose id is not already stored is appended |
| Storage.UnseenOfKnown | app/services/storage.py:41-46 | a batch whose ids are all stored appends nothing |
| Storage.Merge | app/services/storage.py:36-51 | the merge keeps the stored articles as its prefix and adds at most the batch |
| Storage.MergeShape | app/services/storage.py:35-52 | the merge keeps the existing articles as its prefix, has size N + M - K for K duplicates, and its ids are the stored ids and the batch's ids |
| Storage.MergeIdempotent | app/services/storage.py:37-46 | merging the same batch again appends nothing |
| Storage.SecondSaveAddsNothing | app/services/storage.py:35-52 | saving a batch, reading what was written and saving the batch again leaves the list unchanged and counts every article as a duplicate, even when the batch repeats an id |
| Storage.MergeDistinct | app/services/storage.py:37-46 | a condition under which the merge has distinct ids: the stored list and the batch each have distinct ids |
| Storage.UnseenDistinct | app/services/storage.py:41-44 | filtering a batch keeps distinct ids distinct |
| Storage.BatchRepeatStoredTwice | app/services/storage.py:37-43 | an unseen article given twice in one batch is appended twice, so the result has a repeated id |
| Storage.ThreeUrlSaves | app/services/storage.py:35-52 | saving u1, u2 and then u1, u2, u3 stores two and then three articles, the second save counting one new and two duplicates |
| Storage.FirstSaveOfTwo | app/services/storage.py:41-44 | into an empty store both articles of a two-article batch are new |
| Storage.SecondSaveOfThree | app/services/storage.py:41-46 | against the first two ids only the third article is new, and two are duplicates |
| Storage.ArticleStorage.constructor | app/services/storage.py:6-11 | an empty list is written only when no file exists; an existing file is left as it is |
| Storage.ArticleStorage.ReadArticles | app/services/storage.py:13-33 | the read gives the decoded records, or [] when the file is missing or unreadable or any record fails to decode |
| Storage.ArticleStorage.WriteArticles | app/services/storage.py:54-60 | the file becomes exactly the records of the articles in order and their count is returned; when the file cannot be opened nothing changes and None is returned |
| Storage.ArticleStorage.SaveArticles | app/services/storage.py:35-52 | the file becomes the merge of the stored articles and the batch, and the merge's length is returned, also when the write failed |
| Storage.ArticleStorage.SaveArticlesAsWritten | app/services/storage.py:36 | as written, the first lookup, of `_read_articles`, finds no such attribute on the storage object, so every call raises AttributeError for it before anything is read or written |
| Storage.ReaderIsPublic | app/services/storage.py:36 | the class defines `read_articles` and no `_read_articles` |
| Storage.ArticleStorage.GetStats | app/services/storage.py:62-65 | the count is the number of articles a read returns |
| Storage.ArticleStorage.ClearStorage | app/services/storage.py:67-68 | the file holds the empty list, so a read then returns [] |
| RagService.EntryOf | app/services/rag_service.py:30-42 | the stored document is the article's full text, its embedding the model's embedding of that text, and the metadata maps exactly title, url, source_name and published_at to the article's fields |
| RagService.Insert | app/services/rag_service.py:25-42 | after one step the ids are the old ones plus the article's; a present id leaves the collection unchanged, a new one is stored with the article's entry |
| RagService.AddAll | app/services/rag_service.py:23-43 | adding a batch keeps every id that was present |
| RagService.AddAllKeys | app/services/rag_service.py:23-45 | after adding, the ids present are the old ones plus the batch's |
| RagService.AddAllKeeps | app/services/rag_service.py:25-28 | no entry that was present is overwritten |
| RagService.KeptByInsert | app/services/rag_service.py:25-28 | one step leaves the entry under a present id as it was |
| RagService.NewLastStored | app/services/rag_service.py:25-42 | the last article of a batch, with an id new to the collection and to the rest of the batch, is stored with its own entry |
| RagService.AddAllFirstWins | app/services/rag_service.py:25-42 | a new id is stored with the entry of the first article carrying it; a later repeat in the same batch is skipped |
| RagService.AddAllGrowth | app/services/rag_service.py:23-45 | the collection grows by exactly the number of distinct batch ids that were not present |
| RagService.AddAllKnown | app/services/rag_service.py:25-28 | a batch whose ids are all present changes nothing |
| RagService.AddAllIdempotent | app/services/rag_service.py:25-28 | adding the same batch a second time inserts nothing |
| RagService.AddAllPinned | app/services/rag_service.py:30-35 | every stored embedding stays the model's embedding of the stored document |
| RagService.ThreeUrlScenario | app/services/rag_service.py:18-45 | adding u1, u2 and then u1, u2, u3 leaves two and then three entries |
| RagService.Similarity | app/services/rag_service.py:53-54 | the score `1/(1+d)` lies in (0, 1] and is 1 exactly at distance 0 |
| RagService.SimilarityDecreasing | app/services/rag_service.py:53-54 | the score strictly decreases as the distance grows |
| RagService.Shape | app/services/rag_service.py:53-63 | a result copies the hit's id, document and metadata, takes title, url and source_name from the metadata with "" when missing, and has a score in (0, 1] |
| RagService.AnswerIdStored | app/services/rag_service.py:50-52 | every hit the collection answers names a stored id |
| RagService.EmptyIndexSearch | app/services/rag_service.py:50-63 | searching an empty collection gives no result |
| RagService.RankedScores | app/services/rag_service.py:50-63 | results come out from most to least similar |
| RagService.ResultOfStoredArticle | app/services/rag_service.py:30-63 | a result for a stored article carries its full text, title, url and source name, with defaults applying only to missing metadata |
| RagService.RAGService.constructor | app/services/rag_service.py:10-15 | the service opens the persisted collection with the embedding model, and the invariant holds |
| RagService.RAGService.AddArticles | app/services/rag_service.py:18-46 | the collection becomes the one-at-a-time insertion of the batch, the invariant is kept, and the count is the growth of the collection (0 for an empty batch) |
| RagService.RAGService.SearchArticles | app/services/rag_service.py:48-66 | one result per hit, in the collection's order, each reshaped with its score |
| RagService.RAGService.GetStatus | app/services/rag_service.py:68-72 | `total_documents` is the number of stored entries |
| RagService.RAGService.ClearStorage | app/services/rag_service.py:74-77 | the collection is empty afterwards and the invariant holds |
| NewsFetcher.ParseOne | app/services/news_fetcher.py:61-76 | one dictionary parses iff its source is not null and its url is not null; a null source raises AttributeError for `get`, a null url for `encode` |
| NewsFetcher.Parsed | app/services/news_fetcher.py:58-78 | a successful parse has one article per dictionary, and a failure is the exception of the first dictionary that fails to parse |
| NewsFetcher.Prepend | app/services/news_fetcher.py:59-77 | the articles parsed so far come first, followed by the rest; an exception passes through |
| NewsFetcher.ParsedOneToOne | app/services/news_fetcher.py:58-78 | parsing succeeds iff every dictionary parses, and then gives one article per dictionary in the same order |
| NewsFetcher.ParseOneDefaults | app/services/news_fetcher.py:61-76 | missing entries become "", source_name is `source.name` or "", and present entries are kept, None included |
| NewsFetcher.ParseOneFails | app/services/news_fetcher.py:61-76 | a null source or a null url makes parsing raise |
| NewsFetcher.FromConfigAsWritten | app/services/news_fetcher.py:11-15 | as written, construction looks up `news_api_key`, `news_base_url` and `news_everything_url` on the Config in that order, and the last lookup raises AttributeError |
| NewsFetcher.MissingEverythingUrl | app/config.py:7-16 | Config sets the key and the base URL but no `news_everything_url` |
| NewsFetcher.NewFetcher | app/services/news_fetcher.py:11-15 | the fetcher takes the key, the top-headlines URL of the configuration and the given "everything" URL |
| NewsFetcher.FetchRequest | app/services/news_fetcher.py:26-45 | a truthy non-default query goes to the "everything" URL with apiKey, q, pageSize, page and sortBy "relevancy"; any other query goes to the top-headlines URL with apiKey, country, category, pageSize and page, and no q |
| NewsFetcher.EverythingRequest | app/services/news_fetcher.py:80-86 | `search_everything` sends apiKey, q, pageSize and sortBy and no page |
| NewsFetcher.DefaultFetchRequest | app/services/news_fetcher.py:17-45 | with every argument left out, `fetch_news` asks the top-headlines URL for country "us", category "sports", page size 5 and page 1 |
| NewsFetcher.CountryAndPageSizeRequest | app/debug_2_fetcher.py:16 | `fetch_news(country="us", page_size=3)` goes to the top-headlines URL with category "sports", page size 3 and page 1 |
| NewsFetcher.DefaultEverythingRequest | app/services/news_fetcher.py:80-86 | `search_everything(query)` asks for page size 20 sorted by relevancy |
| NewsFetcher.EndpointChoice | app/services/news_fetcher.py:26-45 | the "everything" URL is used iff the query is a keyword query, the top-headlines URL otherwise |
| NewsFetcher.NonKeywordQueries | app/services/news_fetcher.py:17-26 | the default query, an empty query and no query are not keyword queries |
| NewsFetcher.Outcome | app/services/news_fetcher.py:47-56 | a 200 reply with a JSON body gives the parse of its `articles` (of [] when they are absent), and articles come back from no other reply; an API error carries the reply's status, which is not 200; no reply or a non-JSON body is a request error |
| NewsFetcher.OutcomeCases | app/services/news_fetcher.py:47-56 | a status other than 200 is an error with that status; a 200 reply without articles gives [] |
| NewsFetcher.ParseArticles | app/services/news_fetcher.py:58-78 | the loop gives the parse of all dictionaries in order, or the first exception |
| NewsFetcher.FetchNews | app/services/news_fetcher.py:17-56 | the outcome is that of the reply to the chosen request |
| NewsFetcher.SearchEverything | app/services/news_fetcher.py:80-96 | the outcome is that of the reply to the "everything" request |
| NewsFetcher.Send | app/services/news_fetcher.py:47-56 | a failed request or a non-JSON body is a request error, a status other than 200 an API error, and 200 the parse of `articles` (default []) |
| LlmService.Block | app/services/llm_service.py:44 | a block starts with "Article ", its number i+1 and " Title: ", and ends with a newline |
| LlmService.Context | app/services/llm_service.py:45-46 | no results give the empty context; otherwise the context starts with the first block |
| LlmService.ContextGrows | app/services/llm_service.py:43-46 | one more result appends its block, numbered after the others, after a newline |
| LlmService.ContextOfOne | app/services/llm_service.py:43-46 | a single result gives its block alone, numbered 1 |
| LlmService.ContextParts | app/services/llm_service.py:43-45 | one block per result, in order, the i-th numbered i+1 |
| LlmService.Sources | app/services/llm_service.py:55-61 | the first min(3, n) results, in order, each reduced to title, url and source_name |
| LlmService.AskQuestion | app/services/llm_service.py:32-66 | with no results, the fixed answer and no sources; otherwise the question unchanged, the model's text for the numbered context, and the first three results as sources |
| Schemas.ValidateFetchNewsRequest | app/schemas.py:13-18 | a body is accepted iff a given page_size is in 1..20 and a given page is at least 1; a given field is kept, a null field is None, and a left-out field takes its default: query None, country "us", category "sports", page_size 10 and page 1 |
| Schemas.DefaultFetchNewsRequest | app/schemas.py:13-18 | the empty body gives the request with all defaults |
| Schemas.TopK | app/schemas.py:22 | top_k is 5 when left out, null is refused, and a given value is kept iff it is in 1..20 |
| Schemas.ValidateSearchRequest | app/schemas.py:20-22 | a body is accepted iff the query is given and top_k is valid; the query is kept, a given top_k is kept, and a left-out one is 5 |
| Schemas.ValidateQuestionRequest | app/schemas.py:24-26 | a body is accepted iff the question is given and top_k is valid; the question is kept, a given top_k is kept, and a left-out one is 5 |
| Schemas.ArticleResponseOf | app/schemas.py:4-11 | a record is accepted iff id, content, title, url and source_name are str, and the response holds those strings; author and published_at are the record's str or None when missing or null |
| Schemas.ResponseOfArticle | app/schemas.py:4-11 | the record of an article with str title, content and source name gives a response with its id and fields; one with null content is refused |

## Left out

- Console output (`print`) everywhere is not modelled.
- File-system details are not modelled: `os.makedirs`, paths and encodings. The JSON file is an abstract state (missing, unreadable, or a list of records), and whether it can be opened for writing is a flag.
- JSON values other than str and null in a record are not modelled. A `data` that is not a list is folded into "unreadable".
- A failure of `json.dump` after the file was opened is not modelled. It would leave a truncated file.
- Storage.ArticleStorage.SaveArticles models the evident intent, reading through `read_articles`. `SaveArticlesAsWritten` models the code as written. The returned total counts the merge also when the write fails, as the code does.
- Chroma's nearest-neighbour ranking is not modelled. `search_articles` takes the collection's answer as a list of hits (`RagService.AnswerOf` says what a valid answer looks like). The query embedding and `top_k` are therefore not inputs of `SearchArticles`.
- The metadata validation Chroma applies to None values is not modelled.
- `get_status`'s `peek(3)` sample is not modelled. Only `total_documents` is.
- Embedding numerics (float32 vectors, `tolist`) are opaque `seq<real>`. The similarity score is computed over `real`, not floating point.
- RagService.RAGService.AddArticles returns the insertion count, which the source only prints. It requires the service invariant (stored embeddings come from the model); the constructor establishes that invariant.
- `ask_question` builds a new `RAGService()` for every call. The model takes the search results as a parameter instead, so that construction is not modelled.
- The prompt template, ChatGroq and the output parser are one opaque function from (context, question) to text.
- Query parameters set to None are dropped from the URL by `requests`. The model keeps them as `PNone`.
- The JSON-decoding failure of a reply is treated as a request error.
- A 200 reply whose body holds `"articles": null` is not modelled: the body's articles are either a list or absent. In the source, iterating over None in `parse_articles` would raise TypeError.
- Concurrency between callers of `save_articles` or `add_articles` is not modelled. The model is sequential.
- app/main.py (HTTP routes), app/metrics.py, the debug and manual-testing scripts and frontend/app.js are not part of this model.
- Environment loading in app/config.py is not modelled. Only which attributes `Config` sets is used.
- The response schemas other than `ArticleResponse` (SearchResult, SearchResponse, SourceInfo, QuestionResponse, StatsResponse) are not modelled. They are used only by the HTTP routes.
- Models.NewArticle: strings are sequences of Unicode scalar values, so a URL holding a lone surrogate, on which `str.encode('utf-8')` raises, is not modelled.
- Pydantic's type coercion of field values (numbers to str, str to int) is not modelled. A field is either given with the right type, given as null, or left out.

## Findings

| source | as written | input that shows it | evidently intended | confidence | as-written member | corrected member |
|---|---|---|---|---|---|---|
| app/services/storage.py:36 | `save_articles` calls `self._read_articles()`, which the class does not define | any call of `save_articles`, for example with an empty list | call `self.read_articles()` and merge with what it returns | not executed | Storage.ArticleStorage.SaveArticlesAsWritten | Storage.ArticleStorage.SaveArticles |
| app/services/news_fetcher.py:15 | the constructor reads `config.news_everything_url`, which `Config.__init__` (app/config.py:7-16) never sets | `NewsFetcher()` with any environment | the "everything" endpoint URL is configured next to `news_base_url` | not executed | NewsFetcher.FromConfigAsWritten | NewsFetcher.NewFetcher |
