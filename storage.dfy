/** The flat record store of app/services/storage.py: a JSON file holding the
    list of article records, read fail-soft and rewritten wholesale. */
module Storage {
  import opened Wrappers
  import opened Text
  import opened Models

  /** What the JSON file at the store's path holds: nothing, something that
      cannot be read as a list of records, or a list of records. */
  datatype FileState = Missing | Unreadable | Stored(records: seq<Record>)

  /** The records `write_articles` dumps for a list of articles. */
  function Encode(xs: seq<Article>): (rs: seq<Record>)
    ensures |rs| == |xs|
    ensures forall i | 0 <= i < |xs| :: rs[i].Keys == RecordKeys && rs[i]["id"] == Str(xs[i].Id())
  {
    seq(|xs|, i requires 0 <= i < |xs| => xs[i].ToDict())
  }

  /** The seven keys `read_articles` looks up; the stored id is not read. */
  const ReadKeys: set<string> :=
    {"title", "description", "content", "url", "source_name", "published_at", "author"}

  /** One record turned back into an Article: a missing key raises KeyError
      and a URL that is None fails in the constructor. The id is recomputed
      from the URL. */
  function FromDict(d: Record): (r: Option<Article>)
    ensures r.Some? <==> ReadKeys <= d.Keys && d["url"].Str?
    ensures r.Some? ==> r.value == Article(d["title"], d["description"], d["content"], d["url"].s,
                                           d["source_name"], d["published_at"], d["author"])
  {
    if ReadKeys <= d.Keys then
      match NewArticle(d["title"], d["description"], d["content"], d["url"],
                       d["source_name"], d["published_at"], d["author"])
      case Success(a) => Some(a)
      case Failure(_) => None
    else None
  }

  /** Every record of `rs` decodes. */
  predicate AllDecode(rs: seq<Record>)
  {
    forall i | 0 <= i < |rs| :: FromDict(rs[i]).Some?
  }

  /** What `read_articles` returns for a file: the decoded records, or the
      empty list when the file is missing or unreadable or any record fails
      to decode. */
  function Contents(f: FileState): (xs: seq<Article>)
    ensures !f.Stored? ==> xs == []
    ensures f.Stored? && AllDecode(f.records) ==>
              |xs| == |f.records| && forall i | 0 <= i < |xs| :: FromDict(f.records[i]) == Some(xs[i])
    ensures f.Stored? && !AllDecode(f.records) ==> xs == []
  {
    match f
    case Stored(rs) =>
      if AllDecode(rs) then seq(|rs|, i requires 0 <= i < |rs| => FromDict(rs[i]).value) else []
    case _ => []
  }

  /** A record written for an article reads back as that same article. */
  lemma RecordRoundTrip(a: Article)
    ensures FromDict(a.ToDict()) == Some(a)
  {
  }

  /** Writing a list of articles and reading it back gives the same
      articles, field by field and in the same order. */
  lemma {:induction false} WriteReadRoundTrip(xs: seq<Article>)
    ensures Contents(Stored(Encode(xs))) == xs
  {
    var rs := Encode(xs);
    forall i | 0 <= i < |rs| ensures FromDict(rs[i]) == Some(xs[i]) {
      RecordRoundTrip(xs[i]);
    }
  }

  /** The articles of `batch`, in order, whose id is not in `ids`. */
  function Unseen(batch: seq<Article>, ids: set<string>): (r: seq<Article>)
    ensures |r| <= |batch|
  {
    if batch == [] then []
    else
      var last := batch[|batch| - 1];
      Unseen(batch[..|batch| - 1], ids) + (if last.Id() in ids then [] else [last])
  }

  /** What is kept comes from the batch and has an id outside `ids`. */
  lemma {:induction false} UnseenFrom(batch: seq<Article>, ids: set<string>)
    ensures forall a | a in Unseen(batch, ids) :: a in batch && a.Id() !in ids
  {
    if batch != [] {
      var init := batch[..|batch| - 1];
      UnseenFrom(init, ids);
      forall a | a in Unseen(init, ids) ensures a in batch {
        var k :| 0 <= k < |init| && init[k] == a;
        assert batch[k] == a;
      }
    }
  }

  /** How many articles of `batch` have an id in `ids`. */
  function Repeats(batch: seq<Article>, ids: set<string>): nat
  {
    if batch == [] then 0
    else
      Repeats(batch[..|batch| - 1], ids) + (if batch[|batch| - 1].Id() in ids then 1 else 0)
  }

  /** The list `save_articles` writes: the existing articles, then those of
      the batch whose id was not among the existing ids. */
  function Merge(existing: seq<Article>, batch: seq<Article>): (m: seq<Article>)
    ensures existing <= m
    ensures |m| <= |existing| + |batch|
  {
    existing + Unseen(batch, IdsOf(existing))
  }

  /** No two articles of `xs` share an id. */
  predicate DistinctIds(xs: seq<Article>)
  {
    forall i, j | 0 <= i < j < |xs| :: xs[i].Id() != xs[j].Id()
  }

  /** One more article of the batch is kept when its id is not in `ids`,
      and counted as a repeat otherwise. */
  lemma UnseenStep(batch: seq<Article>, ids: set<string>, i: nat)
    requires i < |batch|
    ensures Unseen(batch[..i + 1], ids)
         == Unseen(batch[..i], ids) + (if batch[i].Id() in ids then [] else [batch[i]])
    ensures Repeats(batch[..i + 1], ids)
         == Repeats(batch[..i], ids) + (if batch[i].Id() in ids then 1 else 0)
  {
    assert batch[..i + 1][..i] == batch[..i];
  }

  lemma AppendOne<T>(xs: seq<T>, ys: seq<T>, x: T)
    ensures (xs + ys) + [x] == xs + (ys + [x])
  {
  }

  /** Every article of the batch is counted once, as new or as duplicate. */
  lemma {:induction false} NewPlusDuplicates(batch: seq<Article>, ids: set<string>)
    ensures |Unseen(batch, ids)| + Repeats(batch, ids) == |batch|
  {
    if batch != [] {
      NewPlusDuplicates(batch[..|batch| - 1], ids);
    }
  }

  /** An article of the batch whose id is not in `ids` is kept. */
  lemma {:induction false} UnseenKeeps(batch: seq<Article>, ids: set<string>, k: nat)
    requires k < |batch| && batch[k].Id() !in ids
    ensures batch[k] in Unseen(batch, ids)
  {
    if k < |batch| - 1 {
      UnseenKeeps(batch[..|batch| - 1], ids, k);
    }
  }

  /** Nothing of a batch is kept once all its ids are known. */
  lemma {:induction false} UnseenOfKnown(batch: seq<Article>, ids: set<string>)
    requires IdsOf(batch) <= ids
    ensures Unseen(batch, ids) == []
  {
    if batch != [] {
      var init := batch[..|batch| - 1];
      assert IdsOf(init) <= IdsOf(batch) by {
        forall i | 0 <= i < |init| ensures init[i].Id() in IdsOf(batch) {
          assert init[i] == batch[i];
        }
      }
      assert batch[|batch| - 1].Id() in IdsOf(batch);
      UnseenOfKnown(init, ids);
    }
  }

  /** The merge keeps the existing articles as a prefix, its size is the
      existing size plus the number of new articles, and its ids are those
      of the existing articles and of the batch. */
  lemma MergeShape(existing: seq<Article>, batch: seq<Article>)
    ensures Merge(existing, batch)[..|existing|] == existing
    ensures |Merge(existing, batch)| == |existing| + |batch| - Repeats(batch, IdsOf(existing))
    ensures IdsOf(Merge(existing, batch)) == IdsOf(existing) + IdsOf(batch)
  {
    var ids := IdsOf(existing);
    var m := Merge(existing, batch);
    NewPlusDuplicates(batch, ids);
    UnseenFrom(batch, ids);
    forall x | x in IdsOf(m) ensures x in IdsOf(existing) + IdsOf(batch) {
      var i :| 0 <= i < |m| && m[i].Id() == x;
      if i >= |existing| {
        var a := m[i];
        assert a in Unseen(batch, ids);
        var j :| 0 <= j < |batch| && batch[j] == a;
      }
    }
    forall x | x in IdsOf(existing) + IdsOf(batch) ensures x in IdsOf(m) {
      if x in IdsOf(existing) {
        var i :| 0 <= i < |existing| && existing[i].Id() == x;
        assert m[i] == existing[i];
      } else {
        var j :| 0 <= j < |batch| && batch[j].Id() == x;
        UnseenKeeps(batch, ids, j);
        var u := Unseen(batch, ids);
        var k :| 0 <= k < |u| && u[k] == batch[j];
        assert m[|existing| + k] == batch[j];
      }
    }
  }

  /** Merging the same batch again appends nothing. */
  lemma MergeIdempotent(existing: seq<Article>, batch: seq<Article>)
    ensures Merge(Merge(existing, batch), batch) == Merge(existing, batch)
  {
    var m := Merge(existing, batch);
    MergeShape(existing, batch);
    UnseenOfKnown(batch, IdsOf(m));
  }

  /** Saving a batch and then saving it again: the second merge, computed
      from what the first one wrote, changes nothing, whether or not the
      batch repeats an id. */
  lemma SecondSaveAddsNothing(f: FileState, batch: seq<Article>)
    ensures var m := Merge(Contents(f), batch);
            Merge(Contents(Stored(Encode(m))), batch) == m
            && Repeats(batch, IdsOf(Contents(Stored(Encode(m))))) == |batch|
  {
    var m := Merge(Contents(f), batch);
    WriteReadRoundTrip(m);
    MergeIdempotent(Contents(f), batch);
    MergeShape(Contents(f), batch);
    UnseenOfKnown(batch, IdsOf(m));
    NewPlusDuplicates(batch, IdsOf(m));
  }

  /** The merge has distinct ids when the existing articles and the batch
      each have distinct ids. */
  lemma MergeDistinct(existing: seq<Article>, batch: seq<Article>)
    requires DistinctIds(existing) && DistinctIds(batch)
    ensures DistinctIds(Merge(existing, batch))
  {
    var ids := IdsOf(existing);
    var u := Unseen(batch, ids);
    UnseenDistinct(batch, ids);
    UnseenFrom(batch, ids);
    var m := Merge(existing, batch);
    forall i, j | 0 <= i < j < |m| ensures m[i].Id() != m[j].Id() {
      if j >= |existing| {
        assert m[j] in u;
        if i < |existing| {
          assert m[i].Id() in ids;
        } else {
          assert m[i] == u[i - |existing|] && m[j] == u[j - |existing|];
        }
      }
    }
  }

  /** Filtering keeps distinct ids distinct. */
  lemma {:induction false} UnseenDistinct(batch: seq<Article>, ids: set<string>)
    requires DistinctIds(batch)
    ensures DistinctIds(Unseen(batch, ids))
  {
    if batch != [] {
      var init := batch[..|batch| - 1];
      var last := batch[|batch| - 1];
      var u := Unseen(init, ids);
      UnseenDistinct(init, ids);
      UnseenFrom(init, ids);
      if last.Id() !in ids {
        var r := u + [last];
        assert Unseen(batch, ids) == r;
        forall i, j | 0 <= i < j < |r| ensures r[i].Id() != r[j].Id() {
          if j == |u| {
            assert r[i] in u;
            var k :| 0 <= k < |init| && init[k] == r[i];
            assert batch[k] == r[i];
          } else {
            assert r[i] == u[i] && r[j] == u[j];
          }
        }
      }
    }
  }

  /** The batch's own repeats are not filtered: the id set is fixed before
      the loop, so an unseen article given twice is stored twice. */
  lemma BatchRepeatStoredTwice(existing: seq<Article>, a: Article)
    requires a.Id() !in IdsOf(existing)
    ensures Merge(existing, [a, a]) == existing + [a, a]
    ensures !DistinctIds(Merge(existing, [a, a]))
  {
    var ids := IdsOf(existing);
    assert [a][..0] == [];
    assert Unseen([a], ids) == [a];
    assert [a, a][..1] == [a];
    assert Unseen([a, a], ids) == [a, a];
    var m := Merge(existing, [a, a]);
    assert m[|existing|] == a && m[|existing| + 1] == a;
  }

  /** Saving articles with URLs u1 and u2 (distinct ids) into an empty
      store, then u1, u2 and u3: two stored, then three, the second save
      counting one new article and two duplicates. */
  lemma ThreeUrlSaves(a1: Article, a2: Article, a3: Article)
    requires a1.Id() != a2.Id() && a1.Id() != a3.Id() && a2.Id() != a3.Id()
    ensures var first := Merge([], [a1, a2]);
            && first == [a1, a2]
            && Merge(first, [a1, a2, a3]) == [a1, a2, a3]
            && |Unseen([a1, a2, a3], IdsOf(first))| == 1
            && Repeats([a1, a2, a3], IdsOf(first)) == 2
  {
    var none: set<string> := {};
    assert IdsOf([]) == none;
    FirstSaveOfTwo(a1, a2);
    var first := [a1, a2];
    assert IdsOf(first) == {a1.Id(), a2.Id()} by {
      assert first[0] == a1 && first[1] == a2;
    }
    SecondSaveOfThree(a1, a2, a3, IdsOf(first));
  }

  /** Into an empty store both articles are new. */
  lemma FirstSaveOfTwo(a1: Article, a2: Article)
    ensures Unseen([a1, a2], {}) == [a1, a2]
  {
    var first := [a1, a2];
    assert first[..0] == [];
    UnseenStep(first, {}, 0);
    UnseenStep(first, {}, 1);
    assert first[..2] == first;
  }

  /** Against the ids of the first two, only the third article is new. */
  lemma SecondSaveOfThree(a1: Article, a2: Article, a3: Article, ids: set<string>)
    requires a1.Id() in ids && a2.Id() in ids && a3.Id() !in ids
    ensures Unseen([a1, a2, a3], ids) == [a3] && Repeats([a1, a2, a3], ids) == 2
  {
    var batch := [a1, a2, a3];
    assert batch[..0] == [];
    UnseenStep(batch, ids, 0);
    UnseenStep(batch, ids, 1);
    UnseenStep(batch, ids, 2);
    assert batch[..3] == batch;
  }

  /** The store: the file's state, and whether the path can currently be
      opened for writing (when it cannot, `write_articles` prints the error
      and returns None). */
  class ArticleStorage {
    var file: FileState
    var writable: bool

    /** `ArticleStorage(storage_path)`: an empty list is written only when
        no file exists; an existing file is left as it is. */
    constructor (onDisk: FileState, canWrite: bool)
      ensures writable == canWrite
      ensures file == if onDisk.Missing? && canWrite then Stored([]) else onDisk
    {
      file := onDisk;
      writable := canWrite;
      new;
      if onDisk.Missing? {
        var _ := WriteArticles([]);
      }
    }

    /** `read_articles`: the stored articles, or [] on any failure. */
    method ReadArticles() returns (articles: seq<Article>)
      ensures articles == Contents(file)
    {
      if !file.Stored? {
        return [];
      }
      var rs := file.records;
      articles := [];
      for i := 0 to |rs|
        invariant |articles| == i
        invariant forall k | 0 <= k < i :: FromDict(rs[k]) == Some(articles[k])
      {
        var r := FromDict(rs[i]);
        if r.None? {
          return [];
        }
        articles := articles + [r.value];
      }
    }

    /** `write_articles`: replaces the file with exactly the records of
        `articles`, in order, and returns how many were written; when the
        file cannot be opened nothing changes and None is returned. */
    method WriteArticles(articles: seq<Article>) returns (n: Option<nat>)
      modifies this`file
      ensures writable ==> file == Stored(Encode(articles)) && n == Some(|articles|)
      ensures !writable ==> file == old(file) && n == None
    {
      if writable {
        file := Stored(Encode(articles));
        n := Some(|articles|);
      } else {
        n := None;
      }
    }

    /** `save_articles` as intended (reading through `read_articles`):
        appends the articles whose id is not already stored, writes the
        result and returns its length, also when the write failed. */
    method SaveArticles(articles: seq<Article>) returns (total: nat)
      modifies this`file
      ensures var merged := Merge(Contents(old(file)), articles);
              && total == |merged|
              && file == (if writable then Stored(Encode(merged)) else old(file))
    {
      ghost var before := file;
      var existing := ReadArticles();
      var existingIds := IdsOf(existing);
      var merged := existing;
      var countNew, countDuplicates := 0, 0;
      for i := 0 to |articles|
        invariant merged == existing + Unseen(articles[..i], existingIds)
        invariant countNew == |Unseen(articles[..i], existingIds)|
        invariant countDuplicates == Repeats(articles[..i], existingIds)
        invariant file == before
      {
        UnseenStep(articles, existingIds, i);
        if articles[i].Id() !in existingIds {
          AppendOne(existing, Unseen(articles[..i], existingIds), articles[i]);
          merged := merged + [articles[i]];
          countNew := countNew + 1;
        } else {
          countDuplicates := countDuplicates + 1;
        }
      }
      assert articles[..|articles|] == articles;
      assert merged == Merge(existing, articles);
      var _ := WriteArticles(merged);
      total := |merged|;
    }

    /** `save_articles` as written: its first statement calls
        `self._read_articles()`, which the class does not define, so every
        call raises AttributeError before anything is read or written. */
    method SaveArticlesAsWritten(articles: seq<Article>) returns (r: Result<nat, Exception>)
      ensures r == Failure(AttributeError("_read_articles"))
    {
      var reader := Attr(StorageAttributes, "_read_articles");
      if reader.Failure? {
        return Failure(reader.error);
      }
      assert false;
    }

    /** `get_stats`: the number of articles a read returns. */
    method GetStats() returns (count: nat)
      ensures count == |Contents(file)|
    {
      var articles := ReadArticles();
      count := |articles|;
    }

    /** `clear_storage`: writes the empty list. */
    method ClearStorage()
      modifies this`file
      ensures writable ==> file == Stored([]) && Contents(file) == []
      ensures !writable ==> file == old(file)
    {
      var _ := WriteArticles([]);
    }
  }

  /** The attributes an ArticleStorage instance has. */
  const StorageAttributes: set<string> :=
    {"storage_path", "read_articles", "save_articles", "write_articles", "get_stats", "clear_storage"}

  /** `save_articles` looks up `_read_articles`, which is not among them;
      `read_articles` is. */
  lemma ReaderIsPublic()
    ensures "_read_articles" !in StorageAttributes && "read_articles" in StorageAttributes
  {
  }
}
