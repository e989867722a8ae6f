/** The vector-index wrapper of app/services/rag_service.py. The Chroma
    collection is a map from article id to its stored entry; the embedding
    model is a fixed function from text to vector, chosen when the service
    is built. */
module RagService {
  import opened Text
  import opened Models

  /** An embedding vector; its numbers are opaque here. */
  type Embedding = seq<real>

  /** What the collection stores under one id. */
  datatype Entry = Entry(document: string, embedding: Embedding, metadata: map<string, Value>)

  /** The metadata stored for an article. */
  function MetadataOf(a: Article): map<string, Value>
  {
    map["title" := a.title, "url" := Str(a.url), "source_name" := a.sourceName,
        "published_at" := a.publishedAt]
  }

  /** The entry `add_articles` stores for an article: its full text, the
      embedding of that text, and its metadata. */
  function EntryOf(a: Article, encode: string -> Embedding): (e: Entry)
    ensures e.document == a.FullText() && e.embedding == encode(e.document)
    ensures e.metadata.Keys == {"title", "url", "source_name", "published_at"}
    ensures e.metadata["title"] == a.title && e.metadata["url"] == Str(a.url)
            && e.metadata["source_name"] == a.sourceName && e.metadata["published_at"] == a.publishedAt
  {
    Entry(a.FullText(), encode(a.FullText()), MetadataOf(a))
  }

  /** One step of `add_articles`: skip an article whose id is present,
      otherwise store its entry. */
  function Insert(c: map<string, Entry>, a: Article, encode: string -> Embedding): (r: map<string, Entry>)
    ensures r.Keys == c.Keys + {a.Id()}
    ensures a.Id() in c ==> r == c
    ensures a.Id() !in c ==> r[a.Id()] == EntryOf(a, encode)
  {
    if a.Id() in c then c else c[a.Id() := EntryOf(a, encode)]
  }

  /** The collection after `add_articles(batch)`, one article after another. */
  function AddAll(c: map<string, Entry>, batch: seq<Article>, encode: string -> Embedding)
    : (r: map<string, Entry>)
    ensures c.Keys <= r.Keys
  {
    if batch == [] then c
    else Insert(AddAll(c, batch[..|batch| - 1], encode), batch[|batch| - 1], encode)
  }

  /** Every stored embedding is the model's embedding of the stored text. */
  predicate Pinned(c: map<string, Entry>, encode: string -> Embedding)
  {
    forall k | k in c :: c[k].embedding == encode(c[k].document)
  }

  /** After adding a batch, the ids present are the old ones and the batch's. */
  lemma {:induction false} AddAllKeys(c: map<string, Entry>, batch: seq<Article>,
                                     encode: string -> Embedding)
    ensures AddAll(c, batch, encode).Keys == c.Keys + IdsOf(batch)
  {
    if batch != [] {
      AddAllKeys(c, batch[..|batch| - 1], encode);
      IdsOfSnoc(batch);
    }
  }

  /** Adding a batch changes no entry that was present. */
  lemma {:induction false} AddAllKeeps(c: map<string, Entry>, batch: seq<Article>,
                                      encode: string -> Embedding)
    ensures forall k | k in c :: AddAll(c, batch, encode)[k] == c[k]
  {
    if batch != [] {
      var init := batch[..|batch| - 1];
      var last := batch[|batch| - 1];
      var prev := AddAll(c, init, encode);
      assert AddAll(c, batch, encode) == Insert(prev, last, encode);
      AddAllKeeps(c, init, encode);
      forall k | k in c ensures Insert(prev, last, encode)[k] == c[k] {
        assert k in prev;
      }
    }
  }

  /** A new id gets the entry of the first article of the batch carrying it:
      a repeat later in the same batch is skipped. */
  lemma {:induction false} AddAllFirstWins(c: map<string, Entry>, batch: seq<Article>,
                                          encode: string -> Embedding, i: nat)
    requires i < |batch| && batch[i].Id() !in c
    requires forall j | 0 <= j < i :: batch[j].Id() != batch[i].Id()
    ensures batch[i].Id() in AddAll(c, batch, encode)
    ensures AddAll(c, batch, encode)[batch[i].Id()] == EntryOf(batch[i], encode)
  {
    var init := batch[..|batch| - 1];
    if i < |batch| - 1 {
      assert init[i] == batch[i];
      assert forall j | 0 <= j < i :: init[j] == batch[j];
      AddAllFirstWins(c, init, encode, i);
      KeptByInsert(AddAll(c, init, encode), batch[|batch| - 1], encode, batch[i].Id());
    } else {
      assert batch[i].Id() !in IdsOf(init) by {
        forall j | 0 <= j < |init| ensures init[j].Id() != batch[i].Id() {
          assert init[j] == batch[j];
        }
      }
      NewLastStored(c, batch, encode);
    }
  }

  /** Inserting an article leaves the entry under any present id as it was. */
  lemma KeptByInsert(c: map<string, Entry>, a: Article, encode: string -> Embedding, k: string)
    requires k in c
    ensures k in Insert(c, a, encode) && Insert(c, a, encode)[k] == c[k]
  {
  }

  /** One step adds one entry for a new id and none for a present one. */
  lemma InsertSize(c: map<string, Entry>, a: Article, encode: string -> Embedding)
    ensures |Insert(c, a, encode)| == |c| + (if a.Id() in c then 0 else 1)
  {
  }

  /** The last article of a batch, when its id is new to the collection and
      to the rest of the batch, is stored with its own entry. */
  lemma NewLastStored(c: map<string, Entry>, batch: seq<Article>, encode: string -> Embedding)
    requires batch != []
    requires batch[|batch| - 1].Id() !in c.Keys + IdsOf(batch[..|batch| - 1])
    ensures AddAll(c, batch, encode)[batch[|batch| - 1].Id()] == EntryOf(batch[|batch| - 1], encode)
  {
    AddAllKeys(c, batch[..|batch| - 1], encode);
  }

  /** The collection grows by exactly the number of distinct batch ids that
      were not present. */
  lemma AddAllGrowth(c: map<string, Entry>, batch: seq<Article>, encode: string -> Embedding)
    ensures |AddAll(c, batch, encode)| == |c| + |IdsOf(batch) - c.Keys|
  {
    AddAllKeys(c, batch, encode);
    var added := IdsOf(batch) - c.Keys;
    assert AddAll(c, batch, encode).Keys == c.Keys + added;
    assert c.Keys !! added;
  }

  /** A batch whose ids are all present changes nothing. */
  lemma {:induction false} AddAllKnown(c: map<string, Entry>, batch: seq<Article>,
                                      encode: string -> Embedding)
    requires IdsOf(batch) <= c.Keys
    ensures AddAll(c, batch, encode) == c
  {
    if batch != [] {
      var init := batch[..|batch| - 1];
      assert IdsOf(init) <= IdsOf(batch) by {
        forall x | x in IdsOf(init) ensures x in IdsOf(batch) {
          var i :| 0 <= i < |init| && init[i].Id() == x;
          assert batch[i] == init[i];
        }
      }
      assert batch[|batch| - 1].Id() in IdsOf(batch);
      AddAllKnown(c, init, encode);
    }
  }

  /** Adding the same batch a second time inserts nothing. */
  lemma AddAllIdempotent(c: map<string, Entry>, batch: seq<Article>, encode: string -> Embedding)
    ensures AddAll(AddAll(c, batch, encode), batch, encode) == AddAll(c, batch, encode)
  {
    AddAllKeys(c, batch, encode);
    AddAllKnown(AddAll(c, batch, encode), batch, encode);
  }

  /** Adding keeps every stored embedding tied to the model. */
  lemma {:induction false} AddAllPinned(c: map<string, Entry>, batch: seq<Article>,
                                       encode: string -> Embedding)
    requires Pinned(c, encode)
    ensures Pinned(AddAll(c, batch, encode), encode)
  {
    if batch != [] {
      AddAllPinned(c, batch[..|batch| - 1], encode);
    }
  }

  /** Inserting articles with URLs u1 and u2, then u1, u2 and u3 (three
      distinct ids), leaves two entries and then three, so the second
      `add_articles` call counts one insertion. */
  lemma ThreeUrlScenario(a1: Article, a2: Article, a3: Article, encode: string -> Embedding)
    requires a1.Id() != a2.Id() && a1.Id() != a3.Id() && a2.Id() != a3.Id()
    ensures var first := AddAll(map[], [a1, a2], encode);
            && |first| == 2
            && |AddAll(first, [a1, a2, a3], encode)| == 3
  {
    var first := AddAll(map[], [a1, a2], encode);
    var second := AddAll(first, [a1, a2, a3], encode);
    AddAllKeys(map[], [a1, a2], encode);
    AddAllKeys(first, [a1, a2, a3], encode);
    IdsOfTwo(a1, a2);
    IdsOfThree(a1, a2, a3);
    assert first.Keys == {a1.Id(), a2.Id()};
    assert second.Keys == {a1.Id(), a2.Id(), a3.Id()};
    ThreeDistinct(a1.Id(), a2.Id(), a3.Id());
  }

  lemma ThreeDistinct(x: string, y: string, z: string)
    requires x != y && x != z && y != z
    ensures |{x, y}| == 2 && |{x, y, z}| == 3
  {
    assert {x, y, z} == {x, y} + {z};
  }

  lemma IdsOfTwo(a1: Article, a2: Article)
    ensures IdsOf([a1, a2]) == {a1.Id(), a2.Id()}
  {
    var s := [a1, a2];
    assert s[0] == a1 && s[1] == a2;
  }

  lemma IdsOfThree(a1: Article, a2: Article, a3: Article)
    ensures IdsOf([a1, a2, a3]) == {a1.Id(), a2.Id(), a3.Id()}
  {
    var s := [a1, a2, a3];
    assert s[0] == a1 && s[1] == a2 && s[2] == a3;
  }

  /** A distance as the collection reports it (squared L2, never negative). */
  type Distance = d: real | 0.0 <= d

  /** One answer of the collection's nearest-neighbour query: the i-th
      element of its parallel `ids`, `documents`, `metadatas` and
      `distances` lists. */
  datatype Hit = Hit(id: string, document: string, metadata: map<string, Value>, distance: Distance)

  /** One dictionary of `search_articles`'s result. */
  datatype SearchResult = SearchResult(
    id: string,
    content: string,
    metadata: map<string, Value>,
    title: Value,
    url: Value,
    sourceName: Value,
    similarityScore: real)

  /** `1/(1+distance)`: in (0, 1], and 1 exactly at distance 0. */
  function Similarity(d: Distance): (s: real)
    ensures 0.0 < s <= 1.0
    ensures s == 1.0 <==> d == 0.0
  {
    1.0 / (1.0 + d)
  }

  /** The score strictly decreases as the distance grows. */
  lemma SimilarityDecreasing(d1: Distance, d2: Distance)
    requires d1 < d2
    ensures Similarity(d1) > Similarity(d2)
  {
    var s1, s2 := Similarity(d1), Similarity(d2);
    assert s1 * (1.0 + d1) == 1.0;
    assert s2 * (1.0 + d2) == 1.0;
    assert s2 * (1.0 + d1) < 1.0;
  }

  /** One hit reshaped: title, url and source_name are looked up in the
      metadata with "" as default. */
  function Shape(h: Hit): (r: SearchResult)
    ensures r.id == h.id && r.content == h.document && r.metadata == h.metadata
    ensures r.title == (if "title" in h.metadata then h.metadata["title"] else Str(""))
    ensures r.url == (if "url" in h.metadata then h.metadata["url"] else Str(""))
    ensures r.sourceName == (if "source_name" in h.metadata then h.metadata["source_name"] else Str(""))
    ensures 0.0 < r.similarityScore <= 1.0
  {
    SearchResult(h.id, h.document, h.metadata,
                 Get(h.metadata, "title", Str("")),
                 Get(h.metadata, "url", Str("")),
                 Get(h.metadata, "source_name", Str("")),
                 Similarity(h.distance))
  }

  /** What the collection's query can answer for `top_k` over collection `c`:
      at most `top_k` distinct stored ids with their stored document and
      metadata, nearest first. */
  ghost predicate AnswerOf(c: map<string, Entry>, hits: seq<Hit>, topK: int)
  {
    && |hits| <= topK
    && (forall i | 0 <= i < |hits| ::
          hits[i].id in c && hits[i].document == c[hits[i].id].document
          && hits[i].metadata == c[hits[i].id].metadata)
    && (forall i, j | 0 <= i < j < |hits| :: hits[i].id != hits[j].id)
    && (forall i, j | 0 <= i < j < |hits| :: hits[i].distance <= hits[j].distance)
  }

  /** Every hit names a stored id. */
  lemma AnswerIdStored(c: map<string, Entry>, hits: seq<Hit>, topK: int, i: nat)
    requires AnswerOf(c, hits, topK) && i < |hits|
    ensures hits[i].id in c
  {
  }

  /** Querying an empty collection yields no result. */
  lemma EmptyIndexSearch(hits: seq<Hit>, topK: int)
    requires AnswerOf(map[], hits, topK)
    ensures hits == [] && seq(|hits|, i requires 0 <= i < |hits| => Shape(hits[i])) == []
  {
    if hits != [] {
      AnswerIdStored(map[], hits, topK, 0);
      assert false;
    }
  }

  /** Results come out ordered from most to least similar: a nearer hit has
      a score at least as high, and a strictly nearer one a strictly higher
      score. */
  lemma RankedScores(c: map<string, Entry>, hits: seq<Hit>, topK: int, i: nat, j: nat)
    requires AnswerOf(c, hits, topK) && i < j < |hits|
    ensures Shape(hits[i]).similarityScore >= Shape(hits[j]).similarityScore
    ensures hits[i].distance < hits[j].distance
            ==> Shape(hits[i]).similarityScore > Shape(hits[j]).similarityScore
  {
    if hits[i].distance < hits[j].distance {
      SimilarityDecreasing(hits[i].distance, hits[j].distance);
    }
  }

  /** A result for an id stored by `add_articles` carries that article's
      full text, title, url and source name. */
  lemma ResultOfStoredArticle(a: Article, encode: string -> Embedding, d: Distance)
    ensures var e := EntryOf(a, encode);
            var r := Shape(Hit(a.Id(), e.document, e.metadata, d));
            && r.content == a.FullText() && r.title == a.title && r.url == Str(a.url)
            && r.sourceName == a.sourceName && r.similarityScore == Similarity(d)
  {
  }

  /** The service: the collection and the embedding model. */
  class RAGService {
    var collection: map<string, Entry>
    const encoder: string -> Embedding

    ghost predicate Valid()
      reads this
    {
      Pinned(collection, encoder)
    }

    /** `RAGService()`: opens the persisted collection (created empty when
        there is none) with the embedding model; the persisted entries must
        have been embedded by that same model. */
    constructor (persisted: map<string, Entry>, model: string -> Embedding)
      requires Pinned(persisted, model)
      ensures Valid() && collection == persisted && encoder == model
    {
      collection := persisted;
      encoder := model;
    }

    /** `add_articles`: inserts each article whose id is not yet present,
        checking one article at a time, and counts the insertions. */
    method AddArticles(articles: seq<Article>) returns (count: nat)
      requires Valid()
      modifies this`collection
      ensures Valid()
      ensures collection == AddAll(old(collection), articles, encoder)
      ensures count == |collection| - |old(collection)|
    {
      if articles == [] {
        return 0;
      }
      count := 0;
      for i := 0 to |articles|
        invariant collection == AddAll(old(collection), articles[..i], encoder)
        invariant count == |collection| - |old(collection)|
      {
        assert articles[..i + 1][..i] == articles[..i];
        var article := articles[i];
        assert AddAll(old(collection), articles[..i + 1], encoder) == Insert(collection, article, encoder);
        InsertSize(collection, article, encoder);
        if article.Id() in collection {
          continue;
        }
        var fullText := article.FullText();
        var embedding := encoder(fullText);
        collection := collection[article.Id() := Entry(fullText, embedding, MetadataOf(article))];
        count := count + 1;
      }
      assert articles[..|articles|] == articles;
      AddAllPinned(old(collection), articles, encoder);
    }

    /** `search_articles`, given what the collection's query answered:
        one result per hit, in the collection's order. */
    method SearchArticles(hits: seq<Hit>) returns (results: seq<SearchResult>)
      ensures |results| == |hits|
      ensures forall i | 0 <= i < |hits| :: results[i] == Shape(hits[i])
    {
      results := [];
      for i := 0 to |hits|
        invariant |results| == i
        invariant forall k | 0 <= k < i :: results[k] == Shape(hits[k])
      {
        var h := hits[i];
        var score := 1.0 / (1.0 + h.distance);
        results := results + [SearchResult(h.id, h.document, h.metadata,
                                           Get(h.metadata, "title", Str("")),
                                           Get(h.metadata, "url", Str("")),
                                           Get(h.metadata, "source_name", Str("")),
                                           score)];
      }
    }

    /** `get_status`: the number of stored documents. */
    method GetStatus() returns (totalDocuments: nat)
      ensures totalDocuments == |collection|
    {
      totalDocuments := |collection|;
    }

    /** `clear_storage`: drops the collection and recreates it empty. */
    method ClearStorage()
      modifies this`collection
      ensures Valid() && collection == map[]
    {
      collection := map[];
    }
  }
}
