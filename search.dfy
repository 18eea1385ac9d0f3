/** src/search.py: engine dispatch and the numbered result blocks `search_tavily` builds.
    The Tavily client and the environment are not modelled: what `tavily_client.search`
    answers is a parameter. */
module Search {
  import opened Wrappers
  import opened Text
  import opened Seqs

  /** One entry of `response["results"]`; a missing key is `None`. */
  datatype SearchResult = SearchResult(title: Option<string>, url: Option<string>, content: Option<string>)

  /** What `tavily_client.search(query)` did: answered (with or without a `results` key), or
      raised. */
  datatype Reply =
    | Answered(results: Option<seq<SearchResult>>)
    | Raised

  /** `search_tavily` turns every failure into a bare `Exception`. */
  datatype SearchError = Exception

  /** The search tool chosen in the configuration. */
  datatype SearchEngine = SearchEngine(selectedEngine: string)

  const Unsuccessful: string := "Search Unsuccesful"

  function OrDefault(o: Option<string>, default: string): string {
    match o case Some(v) => v case None => default
  }

  /** The block for result number `i`, with the field defaults. */
  function Block(i: int, r: SearchResult): string {
    "Source [" + IntToStr(i) + "]: " + OrDefault(r.title, "No Title")
    + "\nURL: " + OrDefault(r.url, "")
    + "\nContent: " + OrDefault(r.content, "") + "\n\n"
  }

  /** The blocks of `results`, numbered from `start`, in order. */
  function ContextFrom(results: seq<SearchResult>, start: int): string {
    Numbered(Block, results, start)
  }

  /** The context for a reply: blocks numbered from 1; no `results` key gives "". */
  function Context(results: Option<seq<SearchResult>>): string {
    ContextFrom(OrDefaultSeq(results), 1)
  }

  function OrDefaultSeq(o: Option<seq<SearchResult>>): seq<SearchResult> {
    match o case Some(v) => v case None => []
  }

  /** Numbering continues across a split: the blocks of `a + b` are those of `a` followed by
      those of `b` numbered on from `start + |a|`. */
  lemma ContextFromConcat(a: seq<SearchResult>, b: seq<SearchResult>, start: int)
    ensures ContextFrom(a + b, start) == ContextFrom(a, start) + ContextFrom(b, start + |a|)
  {
    NumberedConcat(Block, a, b, start);
  }

  /** One result appended gets the next number. */
  lemma ContextFromSnoc(a: seq<SearchResult>, r: SearchResult, start: int)
    ensures ContextFrom(a + [r], start) == ContextFrom(a, start) + Block(start + |a|, r)
  {
    ContextFromConcat(a, [r], start);
    var k := start + |a|;
    assert [r][1..] == [];
    assert ContextFrom([r], k) == Block(k, r) + ContextFrom([], k + 1);
    assert Block(k, r) + [] == Block(k, r);
  }

  /** The loop of `search_tavily`: appends one block per result, numbering from 1. */
  method FormatResults(results: seq<SearchResult>) returns (context: string)
    ensures context == ContextFrom(results, 1)
  {
    context := "";
    for i := 0 to |results|
      invariant context == ContextFrom(results[..i], 1)
    {
      var result := results[i];
      var title := OrDefault(result.title, "No Title");
      var content := OrDefault(result.content, "");
      var url := OrDefault(result.url, "");
      var block := "Source [" + IntToStr(i + 1) + "]: " + title + "\nURL: " + url + "\nContent: " + content + "\n\n";
      assert block == Block(1 + i, result);
      ContextFromSnoc(results[..i], result, 1);
      assert results[..i + 1] == results[..i] + [result];
      context := context + block;
    }
    assert results[..|results|] == results;
  }

  /** `search_tavily`: the formatted context, or `Exception` when the client raised. */
  method SearchTavily(query: string, reply: Reply) returns (r: Result<string, SearchError>)
    ensures reply.Raised? ==> r == Failure(Exception)
    ensures reply.Answered? ==> r == Success(Context(reply.results))
  {
    match reply
    case Raised =>
      r := Failure(Exception);
    case Answered(results) =>
      var context := FormatResults(OrDefaultSeq(results));
      r := Success(context);
  }

  /** `text_query`: only "tavily" searches; any other engine answers "Search Unsuccesful". */
  method TextQuery(engine: SearchEngine, query: string, reply: Reply) returns (r: Result<string, SearchError>)
    ensures engine.selectedEngine != "tavily" ==> r == Success(Unsuccessful)
    ensures engine.selectedEngine == "tavily" && reply.Raised? ==> r == Failure(Exception)
    ensures engine.selectedEngine == "tavily" && reply.Answered? ==> r == Success(Context(reply.results))
  {
    if engine.selectedEngine == "tavily" {
      r := SearchTavily(query, reply);
    } else {
      r := Success(Unsuccessful);
    }
  }

  /** A reply without results, or with an empty list, gives the empty context; otherwise the
      context opens with result 1. */
  lemma ContextShape(results: Option<seq<SearchResult>>)
    ensures Context(results) == "" <==> results.None? || results.value == []
    ensures results.Some? && results.value != [] ==>
              Context(results)[..|Block(1, results.value[0])|] == Block(1, results.value[0])
  {
    if results.Some? && results.value != [] {
      assert Block(1, results.value[0])[..1] == "S";
    }
  }

  /** Result `k` (0-based) sits in the context as block number `k + 1`, after the blocks of
      the results before it. */
  lemma ContextLocatesResult(results: seq<SearchResult>, k: nat)
    requires k < |results|
    ensures var before := ContextFrom(results[..k], 1);
            var c := ContextFrom(results, 1);
            |before| + |Block(k + 1, results[k])| <= |c|
            && c[|before|..|before| + |Block(k + 1, results[k])|] == Block(k + 1, results[k])
  {
    assert results == results[..k] + ([results[k]] + results[k + 1..]);
    ContextFromConcat(results[..k], [results[k]] + results[k + 1..], 1);
  }
}
