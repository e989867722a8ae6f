/** The Article entity of app/models.py: an immutable record of the feed's
    fields whose identity is the first six hex digits of the md5 digest of
    its URL. */
module Models {
  import opened Wrappers
  import opened Text

  type byte = b: int | 0 <= b < 256

  predicate IsLowerHex(c: char)
  {
    '0' <= c <= '9' || 'a' <= c <= 'f'
  }

  /** The value of `hashlib.md5(data).hexdigest()`: 32 lower-case hex digits. */
  type HexDigest = s: string | |s| == 32 && forall i | 0 <= i < |s| :: IsLowerHex(s[i])
    witness "00000000000000000000000000000000"

  /** md5 itself is not modelled: this constant is an arbitrary, fixed
      function of the bytes, and only the shape of its result is known. */
  const Md5HexDigest: seq<byte> -> HexDigest

  /** The UTF-8 bytes of one character (`str.encode('utf-8')`). */
  function Utf8Char(c: char): (b: seq<byte>)
    ensures 1 <= |b| <= 4
    ensures (c as int < 0x80) <==> |b| == 1
  {
    var n := c as int;
    if n < 0x80 then [n]
    else if n < 0x800 then [0xC0 + n / 64, 0x80 + n % 64]
    else if n < 0x10000 then [0xE0 + n / 4096, 0x80 + (n / 64) % 64, 0x80 + n % 64]
    else [0xF0 + n / 262144, 0x80 + (n / 4096) % 64, 0x80 + (n / 64) % 64, 0x80 + n % 64]
  }

  /** `s.encode('utf-8')`. */
  function Utf8Encode(s: string): (b: seq<byte>)
    ensures |s| <= |b| <= 4 * |s|
  {
    if s == [] then [] else Utf8Char(s[0]) + Utf8Encode(s[1..])
  }

  /** `Article._generate_id`: the first six characters of the md5 hex
      digest of the UTF-8 encoded URL. */
  function IdOf(url: string): (id: string)
    ensures |id| == 6
    ensures forall i | 0 <= i < |id| :: IsLowerHex(id[i])
  {
    Md5HexDigest(Utf8Encode(url))[..6]
  }

  /** A stored record, the dictionary `Article.to_dict` returns. */
  type Record = map<string, Value>

  /** The eight keys of a stored record. */
  const RecordKeys: set<string> :=
    {"id", "title", "description", "content", "url", "source_name", "published_at", "author"}

  /** An Article. Apart from the URL every field may be None; the URL must
      be a str because the identity encodes it. */
  datatype Article = Article(
    title: Value,
    description: Value,
    content: Value,
    url: string,
    sourceName: Value,
    publishedAt: Value,
    author: Value)
  {
    /** `article.id`, derived from the URL alone. */
    function Id(): string
    {
      IdOf(url)
    }

    /** The seven labelled lines of the full text, before joining. */
    function Lines(): seq<string>
    {
      [ "Title: " + Render(title),
        "Description: " + Render(description),
        "Content: " + Render(content),
        "URL: " + url,
        "Source: " + Render(sourceName),
        "Published At: " + Render(publishedAt),
        "Author: " + Render(author) ]
    }

    /** `get_full_text`: the lines joined by newlines, then stripped, so
        neither end is whitespace. */
    function FullText(): (r: string)
      ensures r == [] || (!IsSpace(r[0]) && !IsSpace(r[|r| - 1]))
    {
      Strip(Join("\n", Lines()))
    }

    /** `to_dict`. */
    function ToDict(): (d: Record)
      ensures d.Keys == RecordKeys
      ensures d["id"] == Str(Id()) && d["url"] == Str(url)
      ensures d["title"] == title && d["description"] == description && d["content"] == content
      ensures d["source_name"] == sourceName && d["published_at"] == publishedAt && d["author"] == author
    {
      map[ "id" := Str(Id()),
           "title" := title,
           "description" := description,
           "content" := content,
           "url" := Str(url),
           "source_name" := sourceName,
           "published_at" := publishedAt,
           "author" := author ]
    }
  }

  /** `Article(title, description, content, url, source_name, published_at,
      author=None)`. No field is checked; only a URL that is None fails,
      because `None.encode` raises. */
  function NewArticle(title: Value, description: Value, content: Value, url: Value,
                      sourceName: Value, publishedAt: Value, author: Value := Null)
    : (r: Result<Article, Exception>)
    ensures r.Success? <==> url.Str?
    ensures r.Failure? ==> r.error == AttributeError("encode")
    ensures r.Success? ==> r.value == Article(title, description, content, url.s, sourceName, publishedAt, author)
  {
    if url.Null? then Failure(AttributeError("encode"))
    else Success(Article(title, description, content, url.s, sourceName, publishedAt, author))
  }

  /** The ids of a sequence of articles. */
  function IdsOf(xs: seq<Article>): set<string>
  {
    set i | 0 <= i < |xs| :: xs[i].Id()
  }

  /** The ids of a non-empty sequence: those of all but the last article,
      and the last one's. */
  lemma IdsOfSnoc(xs: seq<Article>)
    requires xs != []
    ensures IdsOf(xs) == IdsOf(xs[..|xs| - 1]) + {xs[|xs| - 1].Id()}
  {
    var init := xs[..|xs| - 1];
    forall x | x in IdsOf(xs) ensures x in IdsOf(init) + {xs[|xs| - 1].Id()} {
      var i :| 0 <= i < |xs| && xs[i].Id() == x;
      if i < |xs| - 1 { assert init[i] == xs[i]; }
    }
    forall x | x in IdsOf(init) ensures x in IdsOf(xs) {
      var i :| 0 <= i < |init| && init[i].Id() == x;
      assert xs[i] == init[i];
    }
  }

  /** Two articles with the same URL have the same id, whatever their
      other fields. */
  lemma SameUrlSameId(a: Article, b: Article)
    requires a.url == b.url
    ensures a.Id() == b.Id()
  {
  }

  /** Every article constructed from an empty URL has the same id. */
  lemma EmptyUrlsCollide(t1: Value, d1: Value, c1: Value, s1: Value, p1: Value, a1: Value,
                         t2: Value, d2: Value, c2: Value, s2: Value, p2: Value, a2: Value)
    ensures NewArticle(t1, d1, c1, Str(""), s1, p1, a1).Success?
    ensures NewArticle(t2, d2, c2, Str(""), s2, p2, a2).Success?
    ensures NewArticle(t1, d1, c1, Str(""), s1, p1, a1).value.Id()
         == NewArticle(t2, d2, c2, Str(""), s2, p2, a2).value.Id()
  {
    var r1 := NewArticle(t1, d1, c1, Str(""), s1, p1, a1);
    var r2 := NewArticle(t2, d2, c2, Str(""), s2, p2, a2);
    SameUrlSameId(r1.value, r2.value);
  }

  /** The joined lines up to and including the label of the last line. */
  function FullTextHead(a: Article): string
  {
    Join("\n", a.Lines()[..6]) + "\nAuthor:"
  }

  /** `get_full_text` is the seven labelled lines joined by newlines with
      only trailing whitespace removed: it starts with "Title: " followed by
      the title, keeps every line and label up to and including "Author:",
      and what strip removes is whitespace at the end of the author's
      rendering. */
  lemma FullTextLayout(a: Article)
    ensures FullTextHead(a) <= a.FullText() && a.FullText() <= Join("\n", a.Lines())
    ensures "Title: " + Render(a.title) <= a.FullText()
    ensures forall i | |a.FullText()| <= i < |Join("\n", a.Lines())| :: IsSpace(Join("\n", a.Lines())[i])
  {
    var l := a.Lines();
    var head := FullTextHead(a);
    var init := l[..6];
    assert l[..|l| - 1] == init;
    assert Join("\n", l) == Join("\n", init) + "\n" + l[6];
    assert Join("\n", l) == head + " " + Render(a.author);
    assert init[0] == "Title: " + Render(a.title);
    assert head[0] == 'T';
    StripKeepsPrefix(Join("\n", l), head);
  }

  /** An omitted author is None, and the full text then ends with the
      line "Author: None", which strip leaves whole. */
  lemma OmittedAuthor(title: Value, description: Value, content: Value, url: string,
                      sourceName: Value, publishedAt: Value)
    ensures var r := NewArticle(title, description, content, Str(url), sourceName, publishedAt);
            && r.Success? && r.value.author == Null
            && r.value.FullText() == FullTextHead(r.value) + " None"
  {
    var a := Article(title, description, content, url, sourceName, publishedAt, Null);
    var l := a.Lines();
    assert l[..|l| - 1] == l[..6];
    var j := Join("\n", l);
    assert j == FullTextHead(a) + " None";
    FullTextLayout(a);
    assert j[|j| - 1] == 'e' && !IsSpace('e');
    assert |a.FullText()| == |j|;
  }
}
