/** The answer shaping of app/services/llm_service.py: everything in
    `ask_question` around the language-model call. The search results and
    the prompt-plus-model chain are supplied by the caller. */
module LlmService {
  import opened Text
  import RagService

  /** The answer given when the search finds nothing. */
  const NoArticlesAnswer: string := "No relevant articles found to answer the question."

  /** One entry of the answer's `sources`. */
  datatype SourceInfo = SourceInfo(title: Value, url: Value, sourceName: Value)

  /** The dictionary `ask_question` returns. */
  datatype Answer = Answer(question: string, answer: string, sources: seq<SourceInfo>)

  /** The context block of the i-th result (counting from 0), numbered
      from 1. */
  function Block(i: nat, r: RagService.SearchResult): (b: string)
    ensures "Article " + Decimal(i + 1) + " Title: " <= b
    ensures b != [] && b[|b| - 1] == '\n'
  {
    var head := "Article " + Decimal(i + 1) + " Title: ";
    var rest := Render(r.title) + "\nContent: " + r.content + "\nSource: " + Render(r.sourceName)
                + "\nURL: " + Render(r.url) + "\n";
    assert (head + rest)[..|head|] == head;
    head + rest
  }

  /** The blocks of all results, in result order. */
  function Blocks(results: seq<RagService.SearchResult>): seq<string>
  {
    seq(|results|, i requires 0 <= i < |results| => Block(i, results[i]))
  }

  /** The context handed to the model: the blocks joined by newlines. */
  function Context(results: seq<RagService.SearchResult>): (c: string)
    ensures results == [] ==> c == ""
    ensures results != [] ==> Block(0, results[0]) <= c
  {
    Join("\n", Blocks(results))
  }

  /** The source entry of one result. */
  function SourceOf(r: RagService.SearchResult): SourceInfo
  {
    SourceInfo(r.title, r.url, r.sourceName)
  }

  function Min(a: int, b: int): int
  {
    if a <= b then a else b
  }

  /** One more result appends its block, numbered after the others, after a
      newline (or alone when it is the first). */
  lemma ContextGrows(results: seq<RagService.SearchResult>, r: RagService.SearchResult)
    ensures Context(results + [r])
         == (if results == [] then "" else Context(results) + "\n") + Block(|results|, r)
  {
    var b := Blocks(results + [r]);
    assert b[..|b| - 1] == Blocks(results);
    if results == [] {
      assert b == [Block(0, r)];
    }
  }

  /** The first result alone gives its block, numbered 1. */
  lemma ContextOfOne(r: RagService.SearchResult)
    ensures Context([r]) == Block(0, r) && Decimal(0 + 1) == "1"
  {
    ContextGrows([], r);
    assert [] + [r] == [r];
  }

  /** The loop building `context_parts`. */
  method ContextParts(results: seq<RagService.SearchResult>) returns (parts: seq<string>)
    ensures |parts| == |results|
    ensures forall i | 0 <= i < |results| :: parts[i] == Block(i, results[i])
  {
    parts := [];
    for i := 0 to |results|
      invariant |parts| == i
      invariant forall k | 0 <= k < i :: parts[k] == Block(k, results[k])
    {
      var head := "Article " + Decimal(i + 1) + " Title: ";
      var rest := Render(results[i].title) + "\nContent: " + results[i].content + "\nSource: "
                  + Render(results[i].sourceName) + "\nURL: " + Render(results[i].url) + "\n";
      parts := parts + [head + rest];
    }
  }

  /** The loop building `sources` from the first three results. */
  method Sources(results: seq<RagService.SearchResult>) returns (sources: seq<SourceInfo>)
    ensures |sources| == Min(3, |results|)
    ensures forall i | 0 <= i < |sources| :: sources[i] == SourceOf(results[i])
  {
    var firstThree := if |results| <= 3 then results else results[..3];
    sources := [];
    for i := 0 to |firstThree|
      invariant |sources| == i
      invariant forall k | 0 <= k < i :: sources[k] == SourceOf(results[k])
    {
      var r := firstThree[i];
      sources := sources + [SourceInfo(r.title, r.url, r.sourceName)];
    }
  }

  /** `ask_question` given the search results and the chain `llm` from
      (context, question) to the model's text: with no results the fixed
      answer and no sources; otherwise the model's text for the numbered
      context, and the first three results as sources. */
  method AskQuestion(question: string, results: seq<RagService.SearchResult>,
                     llm: (string, string) -> string)
    returns (r: Answer)
    ensures results == [] ==> r == Answer(question, NoArticlesAnswer, [])
    ensures results != [] ==>
              && r.question == question
              && r.answer == llm(Context(results), question)
              && |r.sources| == Min(3, |results|)
              && forall i | 0 <= i < |r.sources| :: r.sources[i] == SourceOf(results[i])
  {
    if results == [] {
      return Answer(question, NoArticlesAnswer, []);
    }
    var parts := ContextParts(results);
    assert parts == Blocks(results);
    var context := Join("\n", parts);
    var response := llm(context, question);
    var sources := Sources(results);
    r := Answer(question, response, sources);
  }
}
